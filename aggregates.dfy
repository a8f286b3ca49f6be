/** The aggregate invocation protocol: each call-site of an aggregate function in
    a query owns a state that `init` resets, `accumulate` folds an event's
    arguments into, and `emit` reads without resetting. */
module Aggregates {
  import opened Values

  /** One aggregate function instance. The built-in bodies live in the aggregate
      registry, which is not part of this model: `fold` and `result` stand for them. */
  datatype Invocable = Invocable(
    state: Value,
    initial: Value,
    fold: (Value, seq<Value>) -> Result<Value>,
    result: Value -> Value)

  /** A call-site: the aggregate instance and its argument expressions. */
  datatype AggrCall = AggrCall(invocable: Invocable, args: seq<Expr>)

  function Init(a: Invocable): Invocable {
    a.(state := a.initial)
  }

  function Accumulate(a: Invocable, argv: seq<Value>): Result<Invocable> {
    match a.fold(a.state, argv)
    case Err(e) => Err(e)
    case Ok(s) => Ok(a.(state := s))
  }

  function Emit(a: Invocable): Value {
    a.result(a.state)
  }

  /** Two call-sites are clones of each other, possibly in different states. */
  ghost predicate SameCallSite(a: AggrCall, b: AggrCall) {
    a.args == b.args
    && a.invocable.initial == b.invocable.initial
    && a.invocable.fold == b.invocable.fold
    && a.invocable.result == b.invocable.result
  }

  ghost predicate SameCallSites(a: seq<AggrCall>, b: seq<AggrCall>) {
    |a| == |b| && forall i :: 0 <= i < |a| ==> SameCallSite(a[i], b[i])
  }

  /** What the call-sites currently emit, in call-site order. */
  function Emits(aggrs: seq<AggrCall>): (r: seq<Value>)
    ensures |r| == |aggrs|
  {
    seq(|aggrs|, i requires 0 <= i < |aggrs| => Emit(aggrs[i].invocable))
  }

  function InitCall(c: AggrCall): AggrCall {
    c.(invocable := Init(c.invocable))
  }

  /** Every call-site reset by `init`. */
  function InitAll(aggrs: seq<AggrCall>): (r: seq<AggrCall>)
    ensures SameCallSites(r, aggrs)
    ensures forall i :: 0 <= i < |r| ==> r[i].invocable.state == aggrs[i].invocable.initial
  {
    seq(|aggrs|, i requires 0 <= i < |aggrs| => InitCall(aggrs[i]))
  }

  /** Argument expressions evaluated left to right; the first failure is the result. */
  function EvalArgs(args: seq<Expr>, env: Env): Result<seq<Value>>
    decreases |args|
  {
    if args == [] then Ok([])
    else
      match EvalArgs(args[..|args| - 1], env)
      case Err(e) => Err(e)
      case Ok(argv) =>
        match args[|args| - 1](env)
        case Err(e) => Err(e)
        case Ok(v) => Ok(argv + [v])
  }

  /** Evaluation succeeds exactly when every argument evaluates, and then yields
      each argument's value in order. */
  lemma {:induction false} EvalArgsOk(args: seq<Expr>, env: Env)
    ensures EvalArgs(args, env).Ok? <==> forall j :: 0 <= j < |args| ==> args[j](env).Ok?
    ensures EvalArgs(args, env).Ok? ==>
      |EvalArgs(args, env).value| == |args|
      && forall j :: 0 <= j < |args| ==> EvalArgs(args, env).value[j] == args[j](env).value
    decreases |args|
  {
    if args != [] {
      var init := args[..|args| - 1];
      EvalArgsOk(init, env);
      assert forall j :: 0 <= j < |init| ==> init[j] == args[j];
    }
  }

  /** A failure among the first `n` arguments is the failure of the whole list. */
  lemma {:induction false} EvalArgsStopsAtError(args: seq<Expr>, env: Env, n: nat)
    requires n <= |args| && EvalArgs(args[..n], env).Err?
    ensures EvalArgs(args, env) == EvalArgs(args[..n], env)
    decreases |args|
  {
    if n < |args| {
      var init := args[..|args| - 1];
      assert init[..n] == args[..n];
      EvalArgsStopsAtError(init, env, n);
    } else {
      assert args[..n] == args;
    }
  }

  /** One call-site folds one event: its arguments are evaluated, then accumulated. */
  function AccumulateCall(c: AggrCall, env: Env): Result<AggrCall> {
    match EvalArgs(c.args, env)
    case Err(e) => Err(e)
    case Ok(argv) =>
      match Accumulate(c.invocable, argv)
      case Err(e) => Err(e)
      case Ok(a) => Ok(c.(invocable := a))
  }

  /** The call-sites after a fold, and the error that stopped it, if any. */
  datatype Folded = Folded(aggrs: seq<AggrCall>, err: Option<Error>)

  /** Folds the event into the call-sites from index `i` on, in order; the first
      failure stops the fold and leaves the earlier call-sites already folded. */
  function AccumulateFrom(aggrs: seq<AggrCall>, env: Env, i: nat): Folded
    requires i <= |aggrs|
    decreases |aggrs| - i
  {
    if i == |aggrs| then Folded(aggrs, None)
    else
      match AccumulateCall(aggrs[i], env)
      case Err(e) => Folded(aggrs, Some(e))
      case Ok(c) => AccumulateFrom(aggrs[i := c], env, i + 1)
  }

  /** Call-site `j` of `after` is call-site `j` of `before` with the event folded in. */
  ghost predicate FoldedAt(before: seq<AggrCall>, after: seq<AggrCall>, env: Env, j: int)
    requires 0 <= j < |before| && |after| == |before|
  {
    AccumulateCall(before[j], env).Ok? && after[j] == AccumulateCall(before[j], env).value
  }

  /** A fold from `i` that meets no failure leaves the call-sites before `i`
      alone and folds the event into every later one. */
  lemma {:induction false} AccumulateFromFoldsAll(aggrs: seq<AggrCall>, env: Env, i: nat)
    requires i <= |aggrs|
    ensures |AccumulateFrom(aggrs, env, i).aggrs| == |aggrs|
    ensures forall j :: 0 <= j < i ==> AccumulateFrom(aggrs, env, i).aggrs[j] == aggrs[j]
    ensures AccumulateFrom(aggrs, env, i).err.None? <==>
      forall j :: i <= j < |aggrs| ==> AccumulateCall(aggrs[j], env).Ok?
    ensures AccumulateFrom(aggrs, env, i).err.None? ==>
      forall j :: i <= j < |aggrs| ==> FoldedAt(aggrs, AccumulateFrom(aggrs, env, i).aggrs, env, j)
    decreases |aggrs| - i
  {
    if i < |aggrs| {
      match AccumulateCall(aggrs[i], env)
      case Err(e) =>
      case Ok(c) =>
        var next := aggrs[i := c];
        AccumulateFromFoldsAll(next, env, i + 1);
        var f := AccumulateFrom(next, env, i + 1);
        assert f == AccumulateFrom(aggrs, env, i);
        assert forall j :: i < j < |aggrs| ==> next[j] == aggrs[j];
        if f.err.None? {
          forall j | i <= j < |aggrs| ensures FoldedAt(aggrs, f.aggrs, env, j) {
            if j > i {
              assert FoldedAt(next, f.aggrs, env, j);
            }
          }
        }
    }
  }

  /** A fold from `i` that fails stops at the first failing call-site `k`: the
      call-sites from `i` up to `k` are folded, `k` and later ones untouched. */
  lemma {:induction false} AccumulateFromStops(aggrs: seq<AggrCall>, env: Env, i: nat)
    requires i <= |aggrs|
    requires AccumulateFrom(aggrs, env, i).err.Some?
    ensures |AccumulateFrom(aggrs, env, i).aggrs| == |aggrs|
    ensures exists k :: (i <= k < |aggrs|
      && AccumulateCall(aggrs[k], env) == Err(AccumulateFrom(aggrs, env, i).err.value)
      && (forall j :: i <= j < k ==> FoldedAt(aggrs, AccumulateFrom(aggrs, env, i).aggrs, env, j))
      && (forall j :: k <= j < |aggrs| ==> AccumulateFrom(aggrs, env, i).aggrs[j] == aggrs[j]))
    decreases |aggrs| - i
  {
    AccumulateFromFoldsAll(aggrs, env, i);
    var r := AccumulateFrom(aggrs, env, i);
    match AccumulateCall(aggrs[i], env)
    case Err(e) =>
      assert AccumulateCall(aggrs[i], env) == Err(r.err.value);
    case Ok(c) =>
      var next := aggrs[i := c];
      AccumulateFromStops(next, env, i + 1);
      assert r == AccumulateFrom(next, env, i + 1);
      AccumulateFromFoldsAll(next, env, i + 1);
      var k :| i + 1 <= k < |next|
        && AccumulateCall(next[k], env) == Err(r.err.value)
        && (forall j :: i + 1 <= j < k ==> FoldedAt(next, r.aggrs, env, j))
        && (forall j :: k <= j < |next| ==> r.aggrs[j] == next[j]);
      assert forall j :: i < j < |aggrs| ==> next[j] == aggrs[j];
      forall j | i <= j < k ensures FoldedAt(aggrs, r.aggrs, env, j) {
        if j > i {
          assert FoldedAt(next, r.aggrs, env, j);
        }
      }
      assert AccumulateCall(aggrs[k], env) == Err(r.err.value);
  }

  /** A fold keeps every call-site a clone of what it was. */
  lemma {:induction false} AccumulateFromKeepsCallSites(aggrs: seq<AggrCall>, env: Env, i: nat)
    requires i <= |aggrs|
    ensures SameCallSites(AccumulateFrom(aggrs, env, i).aggrs, aggrs)
    decreases |aggrs| - i
  {
    if i < |aggrs| {
      match AccumulateCall(aggrs[i], env)
      case Err(e) =>
      case Ok(c) =>
        AccumulateFromKeepsCallSites(aggrs[i := c], env, i + 1);
    }
  }

  function IntOf(v: Value): int {
    if v.I64? then v.i else 0
  }

  /** `count()`: counts the events folded since the last `init`. */
  function Count(): Invocable {
    Invocable(I64(0), I64(0), (s: Value, argv: seq<Value>) => Ok(I64(IntOf(s) + 1)), (s: Value) => s)
  }

  /** `sum(x)` over integers: adds up its one integer argument; anything else is rejected. */
  function Sum(): Invocable {
    Invocable(I64(0), I64(0),
      (s: Value, argv: seq<Value>) =>
        if |argv| == 1 && argv[0].I64? then Ok(I64(IntOf(s) + argv[0].i))
        else Err(AggrError("sum expects one integer")),
      (s: Value) => s)
  }

  function Total(xs: seq<int>): int
    decreases |xs|
  {
    if xs == [] then 0 else Total(xs[..|xs| - 1]) + xs[|xs| - 1]
  }

  /** The call-sites after a run of events, oldest first, each folded in by
      `AccumulateFrom`; the first event whose fold fails ends the run. */
  function FoldRun(aggrs: seq<AggrCall>, envs: seq<Env>): Folded
    decreases |envs|
  {
    if envs == [] then Folded(aggrs, None)
    else
      var prior := FoldRun(aggrs, envs[..|envs| - 1]);
      if prior.err.Some? then prior else AccumulateFrom(prior.aggrs, envs[|envs| - 1], 0)
  }

  /** Folding an event into a single call-site. */
  lemma FoldSingle(c: AggrCall, env: Env)
    ensures AccumulateFrom([c], env, 0)
         == if AccumulateCall(c, env).Ok? then Folded([AccumulateCall(c, env).value], None)
            else Folded([c], Some(AccumulateCall(c, env).error))
  {
    if AccumulateCall(c, env).Ok? {
      assert [c][0 := AccumulateCall(c, env).value] == [AccumulateCall(c, env).value];
    }
  }

  /** Evaluating a single argument. */
  lemma EvalOneArg(e: Expr, env: Env)
    ensures EvalArgs([e], env) == if e(env).Ok? then Ok([e(env).value]) else Err(e(env).error)
  {
    var args := [e];
    assert args[..0] == [];
    assert EvalArgs(args[..0], env) == Ok([]);
    assert args[|args| - 1] == e;
    if e(env).Ok? {
      assert [] + [e(env).value] == [e(env).value];
    }
  }

  /** A lone `count()` call-site holding n holds n + 1 once any event is folded in. */
  lemma CountFolds(n: int, env: Env)
    ensures AccumulateFrom([AggrCall(Count().(state := I64(n)), [])], env, 0)
         == Folded([AggrCall(Count().(state := I64(n + 1)), [])], None)
  {
    assert EvalArgs([], env) == Ok([]);
    FoldSingle(AggrCall(Count().(state := I64(n)), []), env);
  }

  /** A lone `sum(x)` call-site holding n holds n + i once an event where `x` is i
      is folded in. */
  lemma SumFolds(n: int, x: Expr, env: Env, i: int)
    requires x(env) == Ok(I64(i))
    ensures AccumulateFrom([AggrCall(Sum().(state := I64(n)), [x])], env, 0)
         == Folded([AggrCall(Sum().(state := I64(n + i)), [x])], None)
  {
    EvalOneArg(x, env);
    FoldSingle(AggrCall(Sum().(state := I64(n)), [x]), env);
  }

  /** After `init`, a lone `count()` call-site that the operator's fold runs over
      any events emits their number. */
  lemma {:induction false} CountTallies(envs: seq<Env>)
    ensures FoldRun(InitAll([AggrCall(Count(), [])]), envs) == Folded([AggrCall(Count().(state := I64(|envs|)), [])], None)
    ensures Emits(FoldRun(InitAll([AggrCall(Count(), [])]), envs).aggrs) == [I64(|envs|)]
    decreases |envs|
  {
    if envs == [] {
      assert InitAll([AggrCall(Count(), [])]) == [AggrCall(Count().(state := I64(0)), [])];
    } else {
      CountTallies(envs[..|envs| - 1]);
      CountFolds(|envs| - 1, envs[|envs| - 1]);
    }
  }

  /** After `init`, a lone `sum(x)` call-site that the operator's fold runs over
      events where `x` is the integers `xs` emits their total. */
  lemma {:induction false} SumTotals(x: Expr, envs: seq<Env>, xs: seq<int>)
    requires |envs| == |xs|
    requires forall j :: 0 <= j < |xs| ==> x(envs[j]) == Ok(I64(xs[j]))
    ensures FoldRun(InitAll([AggrCall(Sum(), [x])]), envs) == Folded([AggrCall(Sum().(state := I64(Total(xs))), [x])], None)
    ensures Emits(FoldRun(InitAll([AggrCall(Sum(), [x])]), envs).aggrs) == [I64(Total(xs))]
    decreases |envs|
  {
    if envs == [] {
      assert InitAll([AggrCall(Sum(), [x])]) == [AggrCall(Sum().(state := I64(0)), [x])];
    } else {
      var n := |envs| - 1;
      SumTotals(x, envs[..n], xs[..n]);
      SumFolds(Total(xs[..n]), x, envs[n], xs[n]);
    }
  }
}
