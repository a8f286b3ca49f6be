/** The operator's scenario tests, run on the class through its specification:
    each method drives a fresh operator with the events of one test and states
    what each call returns. */
module SelectTests {
  import opened Values
  import opened Windows
  import opened Aggregates
  import opened Select

  /** The test event `s`: id `s`, ingested at `s` seconds, payload `{"h2g2": 42}`. */
  function TestEvent(s: nat): Event {
    Event(s, s * 1_000_000_000, Object(map["h2g2" := I64(42)]), map[], false, None)
  }

  function Literal(v: Value): Expr {
    (env: Env) => Ok(v)
  }

  /** The path `event.h2g2`. */
  function H2g2(): Expr {
    (env: Env) =>
      if env.event.Object? && "h2g2" in env.event.fields then Ok(env.event.fields["h2g2"])
      else Err(EvalError("bad path"))
  }

  /** A target made of the first aggregate call-site alone. */
  function FirstAggregate(): Expr {
    (env: Env) => if |env.aggrs| > 0 then Ok(env.aggrs[0]) else Err(EvalError("no aggregate"))
  }

  /** No GROUP BY in any test, so group values are never rendered. */
  function NoRender(): Value -> string {
    (v: Value) => ""
  }

  /** The statement the hand-built tests use: target `42`, WHERE and HAVING as given. */
  function LiteralStmt(maybeWhere: Option<Expr>, maybeHaving: Option<Expr>): SelectStmt {
    SelectStmt(Literal(I64(42)), maybeWhere, None, maybeHaving, [])
  }

  /** `select stats::count() from in into out;` */
  function CountStmt(): SelectStmt {
    SelectStmt(FirstAggregate(), None, None, None, [AggrCall(Count(), [])])
  }

  /** `select stats::sum(event.h2g2) from in into out;` */
  function SumStmt(): SelectStmt {
    SelectStmt(FirstAggregate(), None, None, None, [AggrCall(Sum(), [H2g2()])])
  }

  /** The output the tests expect: event `s` on "out" carrying `v`. */
  function Emitted(s: nat, v: Value): Result<seq<Output>> {
    Ok([(OUT, TestEvent(s).(value := v))])
  }

  /** sum(event.h2g2) call-site with state n, folded into a test event, holds n + 42. */
  lemma H2g2Folds(n: int, s: nat)
    ensures AccumulateFrom([AggrCall(Sum().(state := I64(n)), [H2g2()])], EventEnv(TestEvent(s)), 0)
         == Folded([AggrCall(Sum().(state := I64(n + 42)), [H2g2()])], None)
  {
    var env := EventEnv(TestEvent(s));
    assert env.event == Object(map["h2g2" := I64(42)]);
    SumFolds(n, H2g2(), env, 42);
  }

  /** count() over events at 0 s, 1 s and 15 s on the default window: nothing,
      nothing, then 2 (the event at 15 s is not yet counted). */
  method CountScenario() returns (outs: seq<Result<seq<Output>>>)
    ensures outs == [Ok([]), Ok([]), Emitted(15, I64(2))]
  {
    var op := new TrickleSelect("select", CountStmt(), Some(DefaultWindow()), NoRender());
    assert InitAll(CountStmt().aggregates) == [AggrCall(Count().(state := I64(0)), [])];
    CountFolds(0, EventEnv(TestEvent(0)));
    var a := op.OnEvent("in", TestEvent(0));
    CountFolds(1, EventEnv(TestEvent(1)));
    var b := op.OnEvent("in", TestEvent(1));
    CountFolds(2, EventEnv(TestEvent(15)));
    var c := op.OnEvent("in", TestEvent(15));
    outs := [a, b, c];
  }

  /** sum(event.h2g2) over the same events, each carrying 42: the third call emits 84. */
  method SumScenario() returns (outs: seq<Result<seq<Output>>>)
    ensures outs == [Ok([]), Ok([]), Emitted(15, I64(84))]
  {
    var op := new TrickleSelect("select", SumStmt(), Some(DefaultWindow()), NoRender());
    assert InitAll(SumStmt().aggregates) == [AggrCall(Sum().(state := I64(0)), [H2g2()])];
    H2g2Folds(0, 0);
    var a := op.OnEvent("in", TestEvent(0));
    H2g2Folds(42, 1);
    var b := op.OnEvent("in", TestEvent(1));
    H2g2Folds(84, 15);
    var c := op.OnEvent("in", TestEvent(15));
    outs := [a, b, c];
  }

  /** Accumulators are reset only when a group's window opens, and a rollover does
      not open it: the second window's result still counts the first window's
      events (0 s, 1 s, 15 s, 30 s gives 2 at 15 s, then 3 at 30 s). */
  method CountCarriesAcrossWindows() returns (outs: seq<Result<seq<Output>>>)
    ensures outs == [Ok([]), Ok([]), Emitted(15, I64(2)), Emitted(30, I64(3))]
  {
    var op := new TrickleSelect("select", CountStmt(), Some(DefaultWindow()), NoRender());
    assert InitAll(CountStmt().aggregates) == [AggrCall(Count().(state := I64(0)), [])];
    CountFolds(0, EventEnv(TestEvent(0)));
    var a := op.OnEvent("in", TestEvent(0));
    CountFolds(1, EventEnv(TestEvent(1)));
    var b := op.OnEvent("in", TestEvent(1));
    CountFolds(2, EventEnv(TestEvent(15)));
    var c := op.OnEvent("in", TestEvent(15));
    CountFolds(3, EventEnv(TestEvent(30)));
    var d := op.OnEvent("in", TestEvent(30));
    outs := [a, b, c, d];
  }

  /** WHERE true, target 42, default window: nothing for 0 s and 1 s, 42 at 15 s. */
  method WhereTrueScenario() returns (outs: seq<Result<seq<Output>>>)
    ensures outs == [Ok([]), Ok([]), Emitted(15, I64(42))]
  {
    var op := new TrickleSelect("select", LiteralStmt(Some(Literal(Bool(true))), None), Some(DefaultWindow()), NoRender());
    var a := op.OnEvent("in", TestEvent(0));
    var b := op.OnEvent("in", TestEvent(1));
    var c := op.OnEvent("in", TestEvent(15));
    outs := [a, b, c];
  }

  /** WHERE true, no HAVING, default window, events at 0 s and 15 s only: nothing,
      then 42. */
  method WhereTrueNoHavingScenario() returns (outs: seq<Result<seq<Output>>>)
    ensures outs == [Ok([]), Emitted(15, I64(42))]
  {
    var op := new TrickleSelect("select", LiteralStmt(Some(Literal(Bool(true))), None), Some(DefaultWindow()), NoRender());
    var a := op.OnEvent("in", TestEvent(0));
    var b := op.OnEvent("in", TestEvent(15));
    outs := [a, b];
  }

  /** WHERE true and HAVING true: nothing at 0 s, 42 at 15 s. */
  method HavingTrueScenario() returns (outs: seq<Result<seq<Output>>>)
    ensures outs == [Ok([]), Emitted(15, I64(42))]
  {
    var op := new TrickleSelect("select", LiteralStmt(Some(Literal(Bool(true))), Some(Literal(Bool(true)))),
                                Some(DefaultWindow()), NoRender());
    var a := op.OnEvent("in", TestEvent(0));
    var b := op.OnEvent("in", TestEvent(15));
    outs := [a, b];
  }

  /** WHERE false: nothing, and the group table stays empty. */
  method WhereFalseScenario() returns (out: Result<seq<Output>>, groupCount: nat)
    ensures out == Ok([]) && groupCount == 0
  {
    var op := new TrickleSelect("select", LiteralStmt(Some(Literal(Bool(false))), None), Some(DefaultWindow()), NoRender());
    out := op.OnEvent("in", TestEvent(0));
    groupCount := |op.groups|;
  }

  /** WHERE "snot": an error, and the group table stays empty. */
  method WhereNotBoolScenario() returns (out: Result<seq<Output>>, groupCount: nat)
    ensures out == Err(GuardNotBool(Str("snot"))) && groupCount == 0
  {
    var op := new TrickleSelect("select", LiteralStmt(Some(Literal(Str("snot"))), None), Some(DefaultWindow()), NoRender());
    out := op.OnEvent("in", TestEvent(0));
    groupCount := |op.groups|;
  }

  /** HAVING false or HAVING an object: the first event only opens the window,
      so HAVING is not evaluated and there is no output and no error. */
  method HavingUnreachedScenario() returns (outs: seq<Result<seq<Output>>>)
    ensures outs == [Ok([]), Ok([])]
  {
    var opFalse := new TrickleSelect("select", LiteralStmt(Some(Literal(Bool(true))), Some(Literal(Bool(false)))),
                                     Some(DefaultWindow()), NoRender());
    var a := opFalse.OnEvent("in", TestEvent(0));
    var opBad := new TrickleSelect("select",
                                   LiteralStmt(Some(Literal(Bool(true))), Some(Literal(Object(map["snot" := Str("badger")])))),
                                   Some(DefaultWindow()), NoRender());
    var b := opBad.OnEvent("in", TestEvent(0));
    outs := [a, b];
  }

  /** Without a window clause: every event passing WHERE yields 42; a
      non-boolean WHERE is an error; HAVING false drops the event silently and
      a non-boolean HAVING is an error. */
  method UnwindowedScenario() returns (outs: seq<Result<seq<Output>>>)
    ensures outs == [Emitted(0, I64(42)), Emitted(1, I64(42)), Err(GuardNotBool(Str("snot"))), Ok([]),
                     Err(GuardNotBool(Object(map["snot" := Str("badger")])))]
  {
    var op := new TrickleSelect("select", LiteralStmt(Some(Literal(Bool(true))), None), None, NoRender());
    var a := op.OnEvent("in", TestEvent(0));
    var b := op.OnEvent("in", TestEvent(1));
    var opWhere := new TrickleSelect("select", LiteralStmt(Some(Literal(Str("snot"))), None), None, NoRender());
    var c := opWhere.OnEvent("in", TestEvent(0));
    var opHaving := new TrickleSelect("select", LiteralStmt(Some(Literal(Bool(true))), Some(Literal(Bool(false)))),
                                      None, NoRender());
    var d := opHaving.OnEvent("in", TestEvent(0));
    var opBad := new TrickleSelect("select",
                                   LiteralStmt(None, Some(Literal(Object(map["snot" := Str("badger")])))),
                                   None, NoRender());
    var e := opBad.OnEvent("in", TestEvent(0));
    outs := [a, b, c, d, e];
  }

  /** HAVING false on an emitting event still leaves that event folded in: count()
      with HAVING false at 0 s, 1 s and 15 s emits nothing, yet counts all three. */
  method HavingFalseStillFolds() returns (outs: seq<Result<seq<Output>>>, count: Value)
    ensures outs == [Ok([]), Ok([]), Ok([])] && count == I64(3)
  {
    var stmt := CountStmt().(maybeHaving := Some(Literal(Bool(false))));
    var op := new TrickleSelect("select", stmt, Some(DefaultWindow()), NoRender());
    assert InitAll(stmt.aggregates) == [AggrCall(Count().(state := I64(0)), [])];
    CountFolds(0, EventEnv(TestEvent(0)));
    var a := op.OnEvent("in", TestEvent(0));
    CountFolds(1, EventEnv(TestEvent(1)));
    var b := op.OnEvent("in", TestEvent(1));
    CountFolds(2, EventEnv(TestEvent(15)));
    var c := op.OnEvent("in", TestEvent(15));
    outs := [a, b, c];
    count := Emit(op.groups[""].aggregates[0].invocable);
  }

  /** A failing `accumulate` is not rolled back: with count() before a sum() whose
      argument is a string, the event is an error, yet count() has counted it. */
  method FailedFoldKeepsEarlierCallSites() returns (out: Result<seq<Output>>, count: Value)
    ensures out.Err? && count == I64(1)
  {
    var bad := [Literal(Str("snot"))];
    var aggrs := [AggrCall(Count(), []), AggrCall(Sum(), bad)];
    var stmt := SelectStmt(FirstAggregate(), None, None, None, aggrs);
    ghost var env := EventEnv(TestEvent(0));
    assert InitAll(aggrs) == aggrs;
    assert EvalArgs([], env) == Ok([]);
    var counted := AggrCall(Count().(state := I64(1)), []);
    assert AccumulateCall(aggrs[0], env) == Ok(counted);
    EvalOneArg(bad[0], env);
    assert AccumulateCall(aggrs[1], env).Err?;
    assert AccumulateFrom(aggrs, env, 0) == AccumulateFrom(aggrs[0 := counted], env, 1);
    var op := new TrickleSelect("select", stmt, Some(DefaultWindow()), NoRender());
    out := op.OnEvent("in", TestEvent(0));
    count := Emit(op.groups[""].aggregates[0].invocable);
  }
}
