/** The windowed continuous-query `select` operator: per event, a WHERE guard,
    then either the plain projection path (no window) or grouping, windowing,
    aggregation, projection and a HAVING guard, with at most one output. */
module Select {
  import opened Values
  import opened Windows
  import opened Aggregates

  /** A compiled `select` statement; the operator only reads it. */
  datatype SelectStmt = SelectStmt(
    target: Expr,
    maybeWhere: Option<Expr>,
    maybeGroupBy: Option<Expr>,
    maybeHaving: Option<Expr>,
    aggregates: seq<AggrCall>)

  /** One group's state: its own window and its own clones of the call-sites. */
  datatype Window = Window(windowImpl: WindowImpl, aggregates: seq<AggrCall>)

  /** A new group's state: copies of the statement's call-sites and of the window
      template, states included, so it starts exactly where the templates are. */
  function FromAggregates(aggregates: seq<AggrCall>, windowImpl: WindowImpl): (w: Window)
    ensures w.windowImpl == windowImpl && w.aggregates == aggregates
    ensures SameCallSites(w.aggregates, aggregates) && SameStrategy(w.windowImpl, windowImpl)
  {
    Window(windowImpl, aggregates)
  }

  type Output = (string, Event)

  const OUT: string := "out"

  /** An absent guard passes; a present one must evaluate to a boolean. */
  function RunGuard(guard: Option<Expr>, env: Env): Result<bool> {
    match guard
    case None => Ok(true)
    case Some(g) =>
      match g(env)
      case Err(e) => Err(e)
      case Ok(Bool(b)) => Ok(b)
      case Ok(other) => Err(GuardNotBool(other))
  }

  /** The group an event belongs to: the rendered GROUP BY result, or "" without GROUP BY. */
  function GroupKey(groupBy: Option<Expr>, env: Env, render: Value -> string): Result<string> {
    match groupBy
    case None => Ok("")
    case Some(g) =>
      match g(env)
      case Err(e) => Err(e)
      case Ok(v) => Ok(render(v))
  }

  /** The environment of WHERE, GROUP BY, aggregate arguments and the unwindowed
      projection: the event, its metadata as an object, no aggregates. */
  function EventEnv(event: Event): Env {
    Env(event.ingestNs, event.value, Object(event.meta), [])
  }

  /** Each event's environment, in order. */
  function EventEnvs(events: seq<Event>): (r: seq<Env>)
    ensures |r| == |events| && forall i :: 0 <= i < |events| ==> r[i] == EventEnv(events[i])
  {
    seq(|events|, i requires 0 <= i < |events| => EventEnv(events[i]))
  }

  /** The outcome of one event: the operator's result and its new group table. */
  datatype Step = Step(out: Result<seq<Output>>, groups: map<string, Window>)

  /** HAVING, run on the rewritten event, decides whether it is sent on "out". */
  function Emission(having: Option<Expr>, env: Env, rewritten: Event): Result<seq<Output>> {
    match RunGuard(having, env)
    case Err(e) => Err(e)
    case Ok(pass) => if pass then Ok([(OUT, rewritten)]) else Ok([])
  }

  /** The path without a window clause: project, overwrite the payload, HAVING. */
  function UnwindowedPath(stmt: SelectStmt, event: Event): Result<seq<Output>> {
    match stmt.target(EventEnv(event))
    case Err(e) => Err(e)
    case Ok(v) => Emission(stmt.maybeHaving, Env(event.ingestNs, v, Null, []), event.(value := v))
  }

  /** The state group `key` is in when an event reaches it: its entry, or a new
      one built from the templates when the key is unseen. */
  function EntryFor(stmt: SelectStmt, window: WindowImpl, groups: map<string, Window>, key: string): Window {
    if key in groups then groups[key] else FromAggregates(stmt.aggregates, window)
  }

  /** The call-sites once the window has seen the event: reset by `init` when the
      window opens, as they were otherwise. */
  function StartedAggregates(w: Window, ingestNs: nat): seq<AggrCall> {
    if Windows.OnEvent(w.windowImpl, ingestNs).event.open then InitAll(w.aggregates) else w.aggregates
  }

  /** The windowed path for the event's group `key`, whose state before the event is `w`. */
  function WindowedPath(stmt: SelectStmt, groups: map<string, Window>, key: string, w: Window, event: Event): Step {
    var env := EventEnv(event);
    var stepped := Windows.OnEvent(w.windowImpl, event.ingestNs);
    var started := StartedAggregates(w, event.ingestNs);
    if stepped.event.emit && stmt.target(env.(aggrs := Emits(started))).Err? then
      Step(Err(stmt.target(env.(aggrs := Emits(started))).error), groups[key := Window(stepped.next, started)])
    else
      var folded := AccumulateFrom(started, env, 0);
      var groups' := groups[key := Window(stepped.next, folded.aggrs)];
      if folded.err.Some? then Step(Err(folded.err.value), groups')
      else if !stepped.event.emit then Step(Ok([]), groups')
      else
        var v := stmt.target(env.(aggrs := Emits(started))).value;
        Step(Emission(stmt.maybeHaving, Env(event.ingestNs, v, Null, Emits(folded.aggrs)), event.(value := v)), groups')
  }

  /** The operator's whole effect on one event, given its statement, its window
      template (absent without a window clause), the renderer of group values
      and its group table. */
  function OnEventSpec(stmt: SelectStmt, window: Option<WindowImpl>, render: Value -> string,
                       groups: map<string, Window>, event: Event): Step
  {
    match RunGuard(stmt.maybeWhere, EventEnv(event))
    case Err(e) => Step(Err(e), groups)
    case Ok(pass) =>
      if !pass then Step(Ok([]), groups)
      else if window.None? then Step(UnwindowedPath(stmt, event), groups)
      else
        match GroupKey(stmt.maybeGroupBy, EventEnv(event), render)
        case Err(e) => Step(Err(e), groups)
        case Ok(key) => WindowedPath(stmt, groups, key, EntryFor(stmt, window.value, groups, key), event)
  }

  /** The outcome of a run of events: one result per event, and the final table. */
  datatype Run = Run(outs: seq<Result<seq<Output>>>, groups: map<string, Window>)

  /** The operator fed `events`, oldest first, starting from the table `groups`. */
  function RunSpec(stmt: SelectStmt, window: Option<WindowImpl>, render: Value -> string,
                   groups: map<string, Window>, events: seq<Event>): (r: Run)
    ensures |r.outs| == |events|
    decreases |events|
  {
    if events == [] then Run([], groups)
    else
      var prior := RunSpec(stmt, window, render, groups, events[..|events| - 1]);
      var s := OnEventSpec(stmt, window, render, prior.groups, events[|events| - 1]);
      Run(prior.outs + [s.out], s.groups)
  }

  /** Every group's state is a clone of the templates: the same call-sites in the
      same order, and a window of the template's strategy; without a window
      clause there are no groups. */
  ghost predicate TableShaped(stmt: SelectStmt, window: Option<WindowImpl>, groups: map<string, Window>) {
    (window.None? ==> groups == map[])
    && forall k :: k in groups ==>
         window.Some?
         && SameCallSites(groups[k].aggregates, stmt.aggregates)
         && SameStrategy(groups[k].windowImpl, window.value)
  }

  /** Evaluates the argument expressions of one call-site, left to right. */
  method RunArgs(args: seq<Expr>, env: Env) returns (r: Result<seq<Value>>)
    ensures r == EvalArgs(args, env)
  {
    var argv: seq<Value> := [];
    var i := 0;
    while i < |args|
      invariant 0 <= i <= |args|
      invariant EvalArgs(args[..i], env) == Ok(argv)
    {
      var result := args[i](env);
      assert args[..i + 1][..i] == args[..i];
      if result.Err? {
        EvalArgsStopsAtError(args, env, i + 1);
        return Err(result.error);
      }
      argv := argv + [result.value];
      i := i + 1;
    }
    assert args[..i] == args;
    r := Ok(argv);
  }

  /** The operator instance: its compiled statement, its window template and its
      table of groups, which grows by one entry per newly seen group key. */
  class TrickleSelect {
    const id: string
    const stmt: SelectStmt
    const window: Option<WindowImpl>
    const render: Value -> string
    var groups: map<string, Window>

    ghost predicate Valid()
      reads this
    {
      TableShaped(stmt, window, groups)
    }

    constructor(id: string, stmt: SelectStmt, window: Option<WindowImpl>, render: Value -> string)
      ensures this.id == id && this.stmt == stmt && this.window == window && this.render == render
      ensures groups == map[] && Valid()
    {
      this.id := id;
      this.stmt := stmt;
      this.window := window;
      this.render := render;
      groups := map[];
    }

    /** Processes one event arriving on `port`; the new group table and the result
        are those `OnEventSpec` gives, partial updates on error included. */
    method OnEvent(port: string, event: Event) returns (r: Result<seq<Output>>)
      requires Valid()
      modifies this
      ensures Valid()
      ensures Step(r, groups) == OnEventSpec(stmt, window, render, old(groups), event)
    {
      OnEventKeepsShape(stmt, window, render, groups, event);
      var env := EventEnv(event);
      var test := RunGuard(stmt.maybeWhere, env);
      if test.Err? {
        return Err(test.error);
      }
      if !test.value {
        return Ok([]);
      }
      if window.None? {
        r := UnwindowedPath(stmt, event);
        return;
      }
      var group := GroupKey(stmt.maybeGroupBy, env, render);
      if group.Err? {
        return Err(group.error);
      }
      var key := group.value;
      ghost var w := EntryFor(stmt, window.value, groups, key);
      ghost var table := groups;
      if key !in groups {
        groups := groups[key := FromAggregates(stmt.aggregates, window.value)];
      }
      r := OnGroupEvent(key, event);
      assert OnEventSpec(stmt, window, render, table, event) == WindowedPath(stmt, table, key, w, event);
      WindowedPathReplacesEntry(stmt, table, key, w, event);
    }

    /** The windowed path for an event of group `key`, whose entry exists. A
        helper of `OnEvent` only, which re-establishes `Valid()` afterwards
        through `OnEventKeepsShape`. */
    method OnGroupEvent(key: string, event: Event) returns (r: Result<seq<Output>>)
      requires key in groups
      modifies this
      ensures Step(r, groups) == WindowedPath(stmt, old(groups), key, old(groups)[key], event)
    {
      var env := EventEnv(event);
      var stepped := Windows.OnEvent(groups[key].windowImpl, event.ingestNs);
      var aggregates := groups[key].aggregates;
      if stepped.event.open {
        aggregates := InitAggregates(aggregates);
      }
      groups := groups[key := Window(stepped.next, aggregates)];

      var maybeValue := None;
      if stepped.event.emit {
        var value := stmt.target(env.(aggrs := Emits(aggregates)));
        if value.Err? {
          return Err(value.error);
        }
        maybeValue := Some(value.value);
      }

      var folded := AccumulateAggregates(aggregates, env);
      groups := groups[key := Window(stepped.next, folded.aggrs)];
      if folded.err.Some? {
        return Err(folded.err.value);
      }

      if maybeValue.Some? {
        var value := maybeValue.value;
        r := Emission(stmt.maybeHaving, Env(event.ingestNs, value, Null, Emits(folded.aggrs)), event.(value := value));
      } else {
        r := Ok([]);
      }
    }
  }

  /** Calls `init` on every call-site, in order. */
  method InitAggregates(aggrs: seq<AggrCall>) returns (r: seq<AggrCall>)
    ensures r == InitAll(aggrs)
  {
    r := aggrs;
    var i := 0;
    while i < |r|
      invariant 0 <= i <= |r| == |aggrs|
      invariant forall j :: 0 <= j < i ==> r[j] == InitCall(aggrs[j])
      invariant forall j :: i <= j < |r| ==> r[j] == aggrs[j]
    {
      r := r[i := InitCall(r[i])];
      i := i + 1;
    }
  }

  /** Folds the event into every call-site, in order: each call-site's arguments
      are evaluated, then passed to `accumulate`; the first failure stops. */
  method AccumulateAggregates(aggrs: seq<AggrCall>, env: Env) returns (f: Folded)
    ensures f == AccumulateFrom(aggrs, env, 0)
  {
    var current := aggrs;
    var i := 0;
    while i < |current|
      invariant 0 <= i <= |current|
      invariant AccumulateFrom(current, env, i) == AccumulateFrom(aggrs, env, 0)
    {
      var aggr := current[i];
      var argv := RunArgs(aggr.args, env);
      if argv.Err? {
        return Folded(current, Some(argv.error));
      }
      var acc := Accumulate(aggr.invocable, argv.value);
      if acc.Err? {
        return Folded(current, Some(acc.error));
      }
      current := current[i := aggr.(invocable := acc.value)];
      i := i + 1;
    }
    f := Folded(current, None);
  }

  /** The windowed path's new table does not depend on the entry it replaces. */
  lemma WindowedPathReplacesEntry(stmt: SelectStmt, groups: map<string, Window>, key: string, w: Window, event: Event)
    ensures WindowedPath(stmt, groups[key := w], key, w, event) == WindowedPath(stmt, groups, key, w, event)
  {
  }

  /** The windowed path keeps every group a clone of the templates. */
  lemma WindowedPathKeepsShape(stmt: SelectStmt, window: Option<WindowImpl>, groups: map<string, Window>,
                               key: string, w: Window, event: Event)
    requires TableShaped(stmt, window, groups) && window.Some?
    requires SameCallSites(w.aggregates, stmt.aggregates) && SameStrategy(w.windowImpl, window.value)
    ensures TableShaped(stmt, window, WindowedPath(stmt, groups, key, w, event).groups)
  {
    var started := StartedAggregates(w, event.ingestNs);
    assert SameCallSites(started, stmt.aggregates);
    AccumulateFromKeepsCallSites(started, EventEnv(event), 0);
    var folded := AccumulateFrom(started, EventEnv(event), 0);
    assert SameCallSites(folded.aggrs, stmt.aggregates);
  }

  /** Processing an event keeps every group a clone of the templates. */
  lemma OnEventKeepsShape(stmt: SelectStmt, window: Option<WindowImpl>, render: Value -> string,
                          groups: map<string, Window>, event: Event)
    requires TableShaped(stmt, window, groups)
    ensures TableShaped(stmt, window, OnEventSpec(stmt, window, render, groups, event).groups)
  {
    if window.Some? && RunGuard(stmt.maybeWhere, EventEnv(event)) == Ok(true) {
      match GroupKey(stmt.maybeGroupBy, EventEnv(event), render)
      case Err(_) =>
      case Ok(key) =>
        WindowedPathKeepsShape(stmt, window, groups, key, EntryFor(stmt, window.value, groups, key), event);
    }
  }
}
