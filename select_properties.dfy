/** What the select operator promises for every statement, window, group table
    and event, stated about its specification `OnEventSpec`. */
module SelectProperties {
  import opened Values
  import opened Windows
  import opened Aggregates
  import opened Select

  /** A WHERE that yields `false` drops the event before any group, window or
      aggregate state is touched. */
  lemma WhereFalseDropsEvent(stmt: SelectStmt, window: Option<WindowImpl>, render: Value -> string,
                             groups: map<string, Window>, event: Event)
    requires stmt.maybeWhere.Some? && stmt.maybeWhere.value(EventEnv(event)) == Ok(Bool(false))
    ensures OnEventSpec(stmt, window, render, groups, event) == Step(Ok([]), groups)
  {
  }

  /** A WHERE that yields anything but a boolean is an error, with no state touched. */
  lemma WhereNotBoolFails(stmt: SelectStmt, window: Option<WindowImpl>, render: Value -> string,
                          groups: map<string, Window>, event: Event, v: Value)
    requires stmt.maybeWhere.Some? && stmt.maybeWhere.value(EventEnv(event)) == Ok(v) && !v.Bool?
    ensures OnEventSpec(stmt, window, render, groups, event) == Step(Err(GuardNotBool(v)), groups)
  {
  }

  /** An evaluation error in WHERE, in GROUP BY (with a window clause) or in the
      projection (without one) is the event's error, with the group table as it was. */
  lemma EvaluationErrorsAreReturned(stmt: SelectStmt, window: Option<WindowImpl>, render: Value -> string,
                                    groups: map<string, Window>, event: Event)
    ensures stmt.maybeWhere.Some? && stmt.maybeWhere.value(EventEnv(event)).Err? ==>
      OnEventSpec(stmt, window, render, groups, event)
        == Step(Err(stmt.maybeWhere.value(EventEnv(event)).error), groups)
    ensures RunGuard(stmt.maybeWhere, EventEnv(event)) == Ok(true) && window.Some?
            && stmt.maybeGroupBy.Some? && stmt.maybeGroupBy.value(EventEnv(event)).Err? ==>
      OnEventSpec(stmt, window, render, groups, event)
        == Step(Err(stmt.maybeGroupBy.value(EventEnv(event)).error), groups)
    ensures RunGuard(stmt.maybeWhere, EventEnv(event)) == Ok(true) && window.None?
            && stmt.target(EventEnv(event)).Err? ==>
      OnEventSpec(stmt, window, render, groups, event) == Step(Err(stmt.target(EventEnv(event)).error), groups)
  {
  }

  /** At most one output, always on port "out", and it is the input event with
      only its payload replaced. */
  lemma AtMostOneOutputOnOut(stmt: SelectStmt, window: Option<WindowImpl>, render: Value -> string,
                             groups: map<string, Window>, event: Event)
    ensures var s := OnEventSpec(stmt, window, render, groups, event);
      s.out.Ok? ==>
        |s.out.value| <= 1
        && forall o :: o in s.out.value ==> o.0 == OUT && o.1 == event.(value := o.1.value)
  {
  }

  /** Without a window clause there is no group state: an event that passes
      WHERE is projected, its payload overwritten with the projection, and HAVING
      (run with null metadata) decides whether it is emitted. */
  lemma UnwindowedEmitsProjection(stmt: SelectStmt, render: Value -> string,
                                  groups: map<string, Window>, event: Event, v: Value)
    requires RunGuard(stmt.maybeWhere, EventEnv(event)) == Ok(true)
    requires stmt.target(EventEnv(event)) == Ok(v)
    ensures var s := OnEventSpec(stmt, None, render, groups, event);
      s.groups == groups
      && (RunGuard(stmt.maybeHaving, Env(event.ingestNs, v, Null, [])) == Ok(true) ==>
            s.out == Ok([(OUT, event.(value := v))]))
      && (RunGuard(stmt.maybeHaving, Env(event.ingestNs, v, Null, [])) == Ok(false) ==>
            s.out == Ok([]))
      && (RunGuard(stmt.maybeHaving, Env(event.ingestNs, v, Null, [])).Err? ==>
            s.out == Err(RunGuard(stmt.maybeHaving, Env(event.ingestNs, v, Null, [])).error))
  {
  }

  /** Only the event's own group can change or appear: every existing entry
      stays, and any new or changed entry is the one the GROUP BY result names. */
  lemma OnlyOwnGroupChanges(stmt: SelectStmt, window: Option<WindowImpl>, render: Value -> string,
                            groups: map<string, Window>, event: Event)
    ensures var s := OnEventSpec(stmt, window, render, groups, event);
      (forall k :: k in groups ==> k in s.groups)
      && forall k :: k in s.groups && (k !in groups || s.groups[k] != groups[k]) ==>
           window.Some?
           && RunGuard(stmt.maybeWhere, EventEnv(event)) == Ok(true)
           && GroupKey(stmt.maybeGroupBy, EventEnv(event), render) == Ok(k)
  {
  }

  /** Without GROUP BY every admitted event belongs to the one group "". */
  lemma NoGroupByUsesEmptyKey(stmt: SelectStmt, window: Option<WindowImpl>, render: Value -> string,
                              groups: map<string, Window>, event: Event)
    requires window.Some? && stmt.maybeGroupBy.None?
    requires RunGuard(stmt.maybeWhere, EventEnv(event)) == Ok(true)
    ensures OnEventSpec(stmt, window, render, groups, event).groups.Keys == groups.Keys + {""}
  {
  }

  /** A group seen for the first time behaves exactly as if an entry built from
      the statement's call-sites and the window template had been there. */
  lemma MissingGroupStartsFromTemplates(stmt: SelectStmt, window: Option<WindowImpl>, render: Value -> string,
                                        groups: map<string, Window>, event: Event, key: string)
    requires window.Some? && RunGuard(stmt.maybeWhere, EventEnv(event)) == Ok(true)
    requires GroupKey(stmt.maybeGroupBy, EventEnv(event), render) == Ok(key) && key !in groups
    ensures OnEventSpec(stmt, window, render, groups, event)
         == OnEventSpec(stmt, window, render, groups[key := FromAggregates(stmt.aggregates, window.value)], event)
  {
    var w := FromAggregates(stmt.aggregates, window.value);
    WindowedPathReplacesEntry(stmt, groups, key, w, event);
  }

  /** Groups never share state: two tables that agree on the event's own group
      give the same result and the same new entry for that group. */
  lemma GroupsAreIndependent(stmt: SelectStmt, window: Option<WindowImpl>, render: Value -> string,
                             g1: map<string, Window>, g2: map<string, Window>, event: Event)
    requires GroupKey(stmt.maybeGroupBy, EventEnv(event), render).Ok? ==>
      var key := GroupKey(stmt.maybeGroupBy, EventEnv(event), render).value;
      (key in g1 <==> key in g2) && (key in g1 ==> g1[key] == g2[key])
    ensures OnEventSpec(stmt, window, render, g1, event).out == OnEventSpec(stmt, window, render, g2, event).out
    ensures GroupKey(stmt.maybeGroupBy, EventEnv(event), render).Ok? ==>
      var key := GroupKey(stmt.maybeGroupBy, EventEnv(event), render).value;
      var s1 := OnEventSpec(stmt, window, render, g1, event);
      var s2 := OnEventSpec(stmt, window, render, g2, event);
      (key in s1.groups <==> key in s2.groups) && (key in s1.groups ==> s1.groups[key] == s2.groups[key])
  {
  }

  /** The first event of a group on a fresh tumbling window: the window opens
      (its boundary becomes the event's time plus the size), `init` runs on every
      call-site, and the event is folded into each. The projection is not
      evaluated: the event succeeds, with no output, exactly when every
      call-site folds it. */
  lemma FirstEventInitsThenFolds(stmt: SelectStmt, size: nat, render: Value -> string,
                                 groups: map<string, Window>, event: Event, key: string)
    requires RunGuard(stmt.maybeWhere, EventEnv(event)) == Ok(true)
    requires GroupKey(stmt.maybeGroupBy, EventEnv(event), render) == Ok(key) && key !in groups
    ensures var s := OnEventSpec(stmt, Some(Tumbling(TumblingWindowOnEventTime(None, size))), render, groups, event);
      var started := InitAll(stmt.aggregates);
      key in s.groups
      && s.groups[key].windowImpl == Tumbling(TumblingWindowOnEventTime(Some(event.ingestNs + size), size))
      && |s.groups[key].aggregates| == |started|
      && (s.out.Ok? <==> forall j :: 0 <= j < |started| ==> AccumulateCall(started[j], EventEnv(event)).Ok?)
      && (s.out.Ok? ==>
            s.out == Ok([])
            && forall j :: 0 <= j < |started| ==> FoldedAt(started, s.groups[key].aggregates, EventEnv(event), j))
  {
    var started := InitAll(stmt.aggregates);
    AccumulateFromFoldsAll(started, EventEnv(event), 0);
  }

  /** An event at or past a started tumbling window's boundary: the boundary moves
      to the event's time plus the size, and the projection sees the call-sites
      exactly as the previous events left them (no `init` at a rollover). A failed
      projection is the result, with the call-sites untouched. Otherwise the event
      is folded into every call-site, and when that succeeds HAVING, run on the
      projection with null metadata, decides: one output on "out" carrying the
      projection when it passes (or is absent), none when it is false, and its
      error otherwise. */
  lemma RolloverProjectsStateBeforeEvent(stmt: SelectStmt, window: WindowImpl, render: Value -> string,
                                         groups: map<string, Window>, event: Event, key: string)
    requires RunGuard(stmt.maybeWhere, EventEnv(event)) == Ok(true)
    requires GroupKey(stmt.maybeGroupBy, EventEnv(event), render) == Ok(key) && key in groups
    requires groups[key].windowImpl.Tumbling?
    requires groups[key].windowImpl.tumbling.nextWindow.Some?
    requires groups[key].windowImpl.tumbling.nextWindow.value <= event.ingestNs
    ensures var s := OnEventSpec(stmt, Some(window), render, groups, event);
      var before := groups[key].aggregates;
      var size := groups[key].windowImpl.tumbling.size;
      var env := EventEnv(event);
      var projected := stmt.target(env.(aggrs := Emits(before)));
      key in s.groups
      && s.groups[key].windowImpl == Tumbling(TumblingWindowOnEventTime(Some(event.ingestNs + size), size))
      && |s.groups[key].aggregates| == |before|
      && (projected.Err? ==> s.out == Err(projected.error) && s.groups[key].aggregates == before)
      && (projected.Ok? && !(forall j :: 0 <= j < |before| ==> AccumulateCall(before[j], env).Ok?) ==> s.out.Err?)
      && (projected.Ok? && (forall j :: 0 <= j < |before| ==> AccumulateCall(before[j], env).Ok?) ==>
            (forall j :: 0 <= j < |before| ==> FoldedAt(before, s.groups[key].aggregates, env, j))
            && var having := RunGuard(stmt.maybeHaving,
                                      Env(event.ingestNs, projected.value, Null, Emits(s.groups[key].aggregates)));
            (having == Ok(true) ==> s.out == Ok([(OUT, event.(value := projected.value))]))
            && (having == Ok(false) ==> s.out == Ok([]))
            && (having.Err? ==> s.out == Err(having.error)))
  {
    AccumulateFromFoldsAll(groups[key].aggregates, EventEnv(event), 0);
  }

  /** An event before a started tumbling window's boundary is only folded in: no
      `init`, the window unchanged, the projection not evaluated; the event
      succeeds, with no output, exactly when every call-site folds it. */
  lemma BeforeBoundaryOnlyFolds(stmt: SelectStmt, window: WindowImpl, render: Value -> string,
                                groups: map<string, Window>, event: Event, key: string)
    requires RunGuard(stmt.maybeWhere, EventEnv(event)) == Ok(true)
    requires GroupKey(stmt.maybeGroupBy, EventEnv(event), render) == Ok(key) && key in groups
    requires groups[key].windowImpl.Tumbling?
    requires groups[key].windowImpl.tumbling.nextWindow.Some?
    requires event.ingestNs < groups[key].windowImpl.tumbling.nextWindow.value
    ensures var s := OnEventSpec(stmt, Some(window), render, groups, event);
      var before := groups[key].aggregates;
      key in s.groups
      && s.groups[key].windowImpl == groups[key].windowImpl
      && |s.groups[key].aggregates| == |before|
      && (s.out.Ok? <==> forall j :: 0 <= j < |before| ==> AccumulateCall(before[j], EventEnv(event)).Ok?)
      && (s.out.Ok? ==>
            s.out == Ok([])
            && forall j :: 0 <= j < |before| ==> FoldedAt(before, s.groups[key].aggregates, EventEnv(event), j))
  {
    AccumulateFromFoldsAll(groups[key].aggregates, EventEnv(event), 0);
  }

  /** A failing `accumulate` is not rolled back, whatever the group and wherever
      its window stands: the window step and any `init` stay, the call-sites
      before the failing one keep this event folded in, and the failing one and
      later ones keep their state from before the fold. */
  lemma AccumulateFailureIsNotAtomic(stmt: SelectStmt, window: WindowImpl, render: Value -> string,
                                     groups: map<string, Window>, event: Event, key: string)
    requires RunGuard(stmt.maybeWhere, EventEnv(event)) == Ok(true)
    requires GroupKey(stmt.maybeGroupBy, EventEnv(event), render) == Ok(key)
    requires var w := EntryFor(stmt, window, groups, key);
      Windows.OnEvent(w.windowImpl, event.ingestNs).event.emit ==>
        stmt.target(EventEnv(event).(aggrs := Emits(StartedAggregates(w, event.ingestNs)))).Ok?
    requires var started := StartedAggregates(EntryFor(stmt, window, groups, key), event.ingestNs);
      !forall j :: 0 <= j < |started| ==> AccumulateCall(started[j], EventEnv(event)).Ok?
    ensures var s := OnEventSpec(stmt, Some(window), render, groups, event);
      var w := EntryFor(stmt, window, groups, key);
      var started := StartedAggregates(w, event.ingestNs);
      s.out.Err? && key in s.groups
      && s.groups[key].windowImpl == Windows.OnEvent(w.windowImpl, event.ingestNs).next
      && |s.groups[key].aggregates| == |started|
      && exists k :: (0 <= k < |started|
           && AccumulateCall(started[k], EventEnv(event)) == Err(s.out.error)
           && (forall j :: 0 <= j < k ==> FoldedAt(started, s.groups[key].aggregates, EventEnv(event), j))
           && (forall j :: k <= j < |started| ==> s.groups[key].aggregates[j] == started[j]))
  {
    var started := StartedAggregates(EntryFor(stmt, window, groups, key), event.ingestNs);
    AccumulateFromFoldsAll(started, EventEnv(event), 0);
    AccumulateFromStops(started, EventEnv(event), 0);
  }

  /** Any event whose window emits, whatever the strategy: the projection sees
      the call-sites once the window has seen the event, that is after `init`
      when the window also opens (a group's first event under the `NoWindow`
      strategy) and as earlier events left them otherwise. A failed
      projection is the result, and the window step and any `init` stay. A
      failed fold is an error. Otherwise every call-site is folded and HAVING,
      run on the projection with null metadata, decides the output. */
  lemma EmittingEventProjectsStarted(stmt: SelectStmt, window: WindowImpl, render: Value -> string,
                                     groups: map<string, Window>, event: Event, key: string)
    requires RunGuard(stmt.maybeWhere, EventEnv(event)) == Ok(true)
    requires GroupKey(stmt.maybeGroupBy, EventEnv(event), render) == Ok(key)
    requires Windows.OnEvent(EntryFor(stmt, window, groups, key).windowImpl, event.ingestNs).event.emit
    ensures var s := OnEventSpec(stmt, Some(window), render, groups, event);
      var w := EntryFor(stmt, window, groups, key);
      var started := StartedAggregates(w, event.ingestNs);
      var env := EventEnv(event);
      var projected := stmt.target(env.(aggrs := Emits(started)));
      key in s.groups
      && s.groups[key].windowImpl == Windows.OnEvent(w.windowImpl, event.ingestNs).next
      && |s.groups[key].aggregates| == |started|
      && (projected.Err? ==> s.out == Err(projected.error) && s.groups[key].aggregates == started)
      && (projected.Ok? && !(forall j :: 0 <= j < |started| ==> AccumulateCall(started[j], env).Ok?) ==> s.out.Err?)
      && (projected.Ok? && (forall j :: 0 <= j < |started| ==> AccumulateCall(started[j], env).Ok?) ==>
            (forall j :: 0 <= j < |started| ==> FoldedAt(started, s.groups[key].aggregates, env, j))
            && var having := RunGuard(stmt.maybeHaving,
                                      Env(event.ingestNs, projected.value, Null, Emits(s.groups[key].aggregates)));
            (having == Ok(true) ==> s.out == Ok([(OUT, event.(value := projected.value))]))
            && (having == Ok(false) ==> s.out == Ok([]))
            && (having.Err? ==> s.out == Err(having.error)))
  {
    AccumulateFromFoldsAll(StartedAggregates(EntryFor(stmt, window, groups, key), event.ingestNs), EventEnv(event), 0);
  }

  /** A group's first event on a `NoWindow` template both opens and emits: the
      projection sees the call-sites reset by `init`, and when it fails the new
      entry keeps that reset and the set flag. */
  lemma NoWindowFirstEventProjectsReset(stmt: SelectStmt, render: Value -> string,
                                        groups: map<string, Window>, event: Event, key: string)
    requires RunGuard(stmt.maybeWhere, EventEnv(event)) == Ok(true)
    requires GroupKey(stmt.maybeGroupBy, EventEnv(event), render) == Ok(key) && key !in groups
    ensures var s := OnEventSpec(stmt, Some(No(NoWindow(false))), render, groups, event);
      var projected := stmt.target(EventEnv(event).(aggrs := Emits(InitAll(stmt.aggregates))));
      key in s.groups
      && s.groups[key].windowImpl == No(NoWindow(true))
      && (projected.Err? ==>
            s.out == Err(projected.error) && s.groups[key] == Window(No(NoWindow(true)), InitAll(stmt.aggregates)))
  {
    EmittingEventProjectsStarted(stmt, No(NoWindow(false)), render, groups, event, key);
  }

  /** The event that opens the one group's first window, from an empty table. */
  lemma FirstWindowOpens(stmt: SelectStmt, d: nat, render: Value -> string, event: Event)
    requires stmt.maybeGroupBy.None? && RunGuard(stmt.maybeWhere, EventEnv(event)) == Ok(true)
    requires AccumulateFrom(InitAll(stmt.aggregates), EventEnv(event), 0).err.None?
    ensures OnEventSpec(stmt, Some(Tumbling(TumblingWindowOnEventTime(None, d))), render, map[], event)
         == Step(Ok([]), map["" := Window(Tumbling(TumblingWindowOnEventTime(Some(event.ingestNs + d), d)),
                                         AccumulateFrom(InitAll(stmt.aggregates), EventEnv(event), 0).aggrs)])
  {
  }

  /** An event inside the one group's window only folds into its call-sites. */
  lemma FirstWindowContinues(stmt: SelectStmt, d: nat, render: Value -> string, boundary: nat,
                             aggrs: seq<AggrCall>, event: Event)
    requires stmt.maybeGroupBy.None? && RunGuard(stmt.maybeWhere, EventEnv(event)) == Ok(true)
    requires event.ingestNs < boundary
    requires AccumulateFrom(aggrs, EventEnv(event), 0).err.None?
    ensures var w := Tumbling(TumblingWindowOnEventTime(Some(boundary), d));
      OnEventSpec(stmt, Some(Tumbling(TumblingWindowOnEventTime(None, d))), render, map["" := Window(w, aggrs)], event)
      == Step(Ok([]), map["" := Window(w, AccumulateFrom(aggrs, EventEnv(event), 0).aggrs)])
  {
    var w := Tumbling(TumblingWindowOnEventTime(Some(boundary), d));
    assert map["" := Window(w, aggrs)][""  := Window(w, AccumulateFrom(aggrs, EventEnv(event), 0).aggrs)]
        == map["" := Window(w, AccumulateFrom(aggrs, EventEnv(event), 0).aggrs)];
  }

  /** A group's first window, followed over a run: without GROUP BY, with every
      event admitted, a fresh tumbling window of size `d` and every later event
      before the boundary the first one sets, each event yields nothing and the
      one group holds the window with that boundary and the call-sites after
      `init` and the fold of every event, in order. */
  lemma {:induction false} FirstWindowFolds(stmt: SelectStmt, d: nat, render: Value -> string, events: seq<Event>)
    requires |events| > 0 && stmt.maybeGroupBy.None?
    requires forall i :: 0 <= i < |events| ==> RunGuard(stmt.maybeWhere, EventEnv(events[i])) == Ok(true)
    requires forall i :: 0 < i < |events| ==> events[i].ingestNs < events[0].ingestNs + d
    requires FoldRun(InitAll(stmt.aggregates), EventEnvs(events)).err.None?
    ensures var r := RunSpec(stmt, Some(Tumbling(TumblingWindowOnEventTime(None, d))), render, map[], events);
      (forall i :: 0 <= i < |events| ==> r.outs[i] == Ok([]))
      && r.groups == map["" := Window(Tumbling(TumblingWindowOnEventTime(Some(events[0].ingestNs + d), d)),
                                     FoldRun(InitAll(stmt.aggregates), EventEnvs(events)).aggrs)]
    decreases |events|
  {
    var template := Some(Tumbling(TumblingWindowOnEventTime(None, d)));
    var n := |events| - 1;
    var prefix := events[..n];
    var envs := EventEnvs(events);
    assert envs[..n] == EventEnvs(prefix);
    var before := FoldRun(InitAll(stmt.aggregates), envs[..n]);
    assert FoldRun(InitAll(stmt.aggregates), envs) == AccumulateFrom(before.aggrs, envs[n], 0);
    var prior := RunSpec(stmt, template, render, map[], prefix);
    var step := OnEventSpec(stmt, template, render, prior.groups, events[n]);
    var after := FoldRun(InitAll(stmt.aggregates), envs).aggrs;
    var boundary := events[0].ingestNs + d;
    if n == 0 {
      assert prefix == [] && envs[..n] == [];
      FirstWindowOpens(stmt, d, render, events[0]);
      assert step == Step(Ok([]), map["" := Window(Tumbling(TumblingWindowOnEventTime(Some(boundary), d)), after)]);
    } else {
      assert prefix[0] == events[0];
      FirstWindowFolds(stmt, d, render, prefix);
      FirstWindowContinues(stmt, d, render, boundary, before.aggrs, events[n]);
      assert step == Step(Ok([]), map["" := Window(Tumbling(TumblingWindowOnEventTime(Some(boundary), d)), after)]);
    }
    assert RunSpec(stmt, template, render, map[], events) == Run(prior.outs + [step.out], step.groups);
  }

  /** The first event at or past the first window's boundary emits the projection
      of the fold of every earlier event (after `init`), or that projection's
      error; when the fold of this event also succeeds, HAVING over the whole
      fold decides the output, and a failing fold is the error. */
  lemma FirstRolloverEmitsFold(stmt: SelectStmt, d: nat, render: Value -> string, events: seq<Event>, last: Event)
    requires |events| > 0 && stmt.maybeGroupBy.None?
    requires forall i :: 0 <= i < |events| ==> RunGuard(stmt.maybeWhere, EventEnv(events[i])) == Ok(true)
    requires forall i :: 0 < i < |events| ==> events[i].ingestNs < events[0].ingestNs + d
    requires FoldRun(InitAll(stmt.aggregates), EventEnvs(events)).err.None?
    requires RunGuard(stmt.maybeWhere, EventEnv(last)) == Ok(true)
    requires events[0].ingestNs + d <= last.ingestNs
    ensures var r := RunSpec(stmt, Some(Tumbling(TumblingWindowOnEventTime(None, d))), render, map[], events + [last]);
      var before := FoldRun(InitAll(stmt.aggregates), EventEnvs(events)).aggrs;
      var all := FoldRun(InitAll(stmt.aggregates), EventEnvs(events + [last]));
      var projected := stmt.target(EventEnv(last).(aggrs := Emits(before)));
      (forall i :: 0 <= i < |events| ==> r.outs[i] == Ok([]))
      && (projected.Err? ==> r.outs[|events|] == Err(projected.error))
      && (projected.Ok? && all.err.Some? ==> r.outs[|events|] == Err(all.err.value))
      && (projected.Ok? && all.err.None? ==>
            r.outs[|events|] == Emission(stmt.maybeHaving, Env(last.ingestNs, projected.value, Null, Emits(all.aggrs)),
                                         last.(value := projected.value)))
  {
    var template := Some(Tumbling(TumblingWindowOnEventTime(None, d)));
    var whole := events + [last];
    assert whole[..|events|] == events;
    assert EventEnvs(whole)[..|events|] == EventEnvs(events);
    FirstWindowFolds(stmt, d, render, events);
  }
}
