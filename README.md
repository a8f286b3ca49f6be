# Tremor `select` operator — a Dafny model

This project models the windowed continuous-query `SELECT` operator of the
tremor event-processing pipeline (`TrickleSelect` in
`tremor-pipeline/src/op/trickle/select.rs`). The operator handles one event per
call, in this order:

1. It runs the WHERE guard.
2. Without a window clause, it projects the event, overwrites the payload and runs HAVING.
3. With a window clause, it first looks up or creates the event's group, keyed by the rendered GROUP BY value ("" without GROUP BY).
4. It feeds the event's `ingest_ns` to that group's window, which reports `{open, emit}`.
5. It calls `init` on every aggregate call-site when the window reports `open`.
6. It evaluates the projection when the window reports `emit`. The projection sees the aggregate state from before this event.
7. It folds the event into every call-site with `accumulate`.
8. On emission, it overwrites the payload, runs HAVING with null metadata, and emits at most one `("out", event)`.

Files and modules:

- `values.dfy` (`Values`): values, events, errors, the evaluation environment, and `Expr`. An expression is any total function from an environment to a `Result`.
- `windows.dfy` (`Windows`): the two window strategies as datatypes with step functions, the closed `WindowImpl` dispatch, the default window, and lemmas about runs of events.
- `aggregates.dfy` (`Aggregates`): the init/accumulate/emit protocol. An aggregate instance is a datatype whose `fold` and `result` fields stand for the built-in bodies. It also has the concrete `Count` and integer `Sum`, argument evaluation, and the in-order fold that stops at the first failure.
- `select.dfy` (`Select`):
  - the compiled statement and each group's `Window`;
  - the specification function `OnEventSpec`, which gives the result and the new group table for one event;
  - the class `TrickleSelect`, whose `groups` map the `OnEvent` method updates. The method is proved equal to `OnEventSpec`, partial updates on error included;
  - the read-only loop methods `RunArgs`, `InitAggregates` and `AccumulateAggregates`.
- `select_properties.dfy` (`SelectProperties`): lemmas about `OnEventSpec` for every statement, table and event.
- `select_tests.dfy` (`SelectTests`): each of the source's nine scenario tests, plus four more that show behaviour those tests do not reach (`CountCarriesAcrossWindows`, `UnwindowedScenario`, `HavingFalseStillFolds`, `FailedFoldKeepsEarlierCallSites`). Each is a method that drives a fresh `TrickleSelect`.

Behaviour of the code worth knowing, each shown by the members named:

- A tumbling window's rollover reports `open: false`, so `init` never runs at a rollover. A group's accumulators are reset only by its first event, and each later window's results include every earlier window's events (`RolloverProjectsStateBeforeEvent`, `CountCarriesAcrossWindows`).
- On the windowed path, an event that HAVING drops has still advanced its group's window and been folded into its aggregates (`EmittingEventProjectsStarted`, `HavingFalseStillFolds`). An event that WHERE rejects leaves the group table as it was (`WhereFalseDropsEvent`). Without a window clause there is no group state, so HAVING false only suppresses the output (`UnwindowedEmitsProjection`).
- Errors are not rolled back. A projection error leaves the window step and any `init` in place (`EmittingEventProjectsStarted`, `NoWindowFirstEventProjectsReset`). A call-site's `accumulate` error also leaves the earlier call-sites' folds in place (`AccumulateFailureIsNotAtomic`, `FailedFoldKeepsEarlierCallSites`).
- Over a run without GROUP BY, starting from an empty table, with WHERE admitting every event and no fold failing, the one group's first tumbling window holds the fold of every event since its opening `init`. The first event at or past the boundary then yields one of three things:
  - the projection's error, if the projection of that fold fails;
  - the error of folding this event in, if that fold fails;
  - otherwise, HAVING's verdict on the projection: the event carrying it on "out", nothing when HAVING is false, or an error when HAVING is not a boolean (`FirstWindowFolds`, `FirstRolloverEmitsFold`).
- The source's tests named `nowin` install the default 15-second tumbling window, so they exercise the windowed path. The scenarios here do the same; `UnwindowedScenario` covers the real no-window path.

## Model

| member | source | states |
|---|---|---|
| Windows.DefaultWindow | tremor-pipeline/src/op/trickle/select.rs:102-110 | the default window is tumbling, 15 s wide, with no boundary yet |
| Windows.NoWindowOnEvent | tremor-pipeline/src/op/trickle/select.rs:153-168 | every call emits and leaves the flag set; it reports `open` exactly when the flag was not yet set |
| Windows.TumblingOnEvent | tremor-pipeline/src/op/trickle/select.rs:176-199 | opens iff there is no boundary; emits iff the boundary is at or before `ingest_ns`; on open or emit the boundary becomes `ingest_ns + size`; otherwise the state is unchanged; the size never changes |
| Windows.OnEvent | tremor-pipeline/src/op/trickle/select.rs:112-119 | dispatch keeps the strategy and its size; without a window every event emits; a tumbling window never opens and emits at once |
| Windows.NoWindowEmitsEveryEvent | tremor-pipeline/src/op/trickle/select.rs:153-168 | over any run of events, every report emits and only the first event of a fresh window opens |
| Windows.TumblingOpensOnlyOnce | tremor-pipeline/src/op/trickle/select.rs:186-192 | over any run of events, `open` is reported only for the first event of a window with no boundary, and never with `emit` |
| Windows.TumblingEmitsAtBoundary | tremor-pipeline/src/op/trickle/select.rs:186-196 | with a boundary set, events before it are silent and the first event at or past it emits |
| Windows.TumblingFirstWindow | tremor-pipeline/src/op/trickle/select.rs:179-196 | a fresh window of size D opens on the first event at t0, stays silent before t0 + D, and emits on the first event at or after t0 + D |
| Aggregates.InitAll | tremor-pipeline/src/op/trickle/select.rs:282-287 | `init` on every call-site resets each to its initial state and keeps the call-sites and their order |
| Aggregates.EvalArgsOk | tremor-pipeline/src/op/trickle/select.rs:313-326 | argument evaluation succeeds iff every argument evaluates, and then yields their values in order |
| Aggregates.EvalArgsStopsAtError | tremor-pipeline/src/op/trickle/select.rs:315-324 | the first failing argument's error is the error of the whole list |
| Aggregates.AccumulateFromFoldsAll | tremor-pipeline/src/op/trickle/select.rs:311-338 | the fold fails iff some call-site fails; without a failure, every call-site has the event folded in and none is skipped |
| Aggregates.AccumulateFromStops | tremor-pipeline/src/op/trickle/select.rs:311-338 | on failure the fold stops at the first failing call-site: earlier ones are folded, it and later ones are untouched |
| Aggregates.AccumulateFromKeepsCallSites | tremor-pipeline/src/op/trickle/select.rs:311-338 | folding changes only the call-sites' states, never their arguments or functions |
| Aggregates.CountTallies | tremor-pipeline/src/op/trickle/select.rs:535-546 | after `init`, a `count()` call-site run through the operator's per-event fold over any events emits their number |
| Aggregates.SumTotals | tremor-pipeline/src/op/trickle/select.rs:522-533 | after `init`, an integer `sum(x)` call-site run through the operator's per-event fold emits the total of `x` over those events |
| Select.FromAggregates | tremor-pipeline/src/op/trickle/select.rs:75-88 | a new group's state is an exact copy of the statement's call-sites and of the window template, states included |
| Select.RunArgs | tremor-pipeline/src/op/trickle/select.rs:313-326 | the argument loop returns the left-to-right evaluation of the call-site's arguments, or its first error |
| Select.InitAggregates | tremor-pipeline/src/op/trickle/select.rs:282-287 | the `init` loop yields every call-site reset, in order |
| Select.AccumulateAggregates | tremor-pipeline/src/op/trickle/select.rs:311-338 | the `accumulate` loop yields the in-order fold, stopping at the first failure with earlier call-sites already folded |
| Select.TrickleSelect.constructor | tremor-pipeline/src/op/trickle/select.rs:490-498 | a new operator holds the statement and window template and an empty group table |
| Select.TrickleSelect.OnEvent | tremor-pipeline/src/op/trickle/select.rs:215-415 | the result and new group table are exactly `OnEventSpec`'s, and every group stays a clone of the templates |
| Select.TrickleSelect.OnGroupEvent | tremor-pipeline/src/op/trickle/select.rs:281-368 | the windowed steps for an existing entry (window step, `init` on open, projection on emit, `accumulate`, payload overwrite, HAVING) give `WindowedPath`'s result and table |
| Select.OnEventKeepsShape | tremor-pipeline/src/op/trickle/select.rs:276-280 | after any event, every group holds the statement's call-sites in order and a window of the template's strategy; without a window the table stays empty |
| Select.WindowedPathKeepsShape | tremor-pipeline/src/op/trickle/select.rs:281-338 | the windowed steps keep a group's call-sites and window strategy |
| Select.WindowedPathReplacesEntry | tremor-pipeline/src/op/trickle/select.rs:276-280 | the group's entry is overwritten in place: what it held before the lookup does not matter once the entry is chosen |
| SelectProperties.WhereFalseDropsEvent | tremor-pipeline/src/op/trickle/select.rs:238-252 | a WHERE yielding false gives an empty output and leaves the group table untouched |
| SelectProperties.WhereNotBoolFails | tremor-pipeline/src/op/trickle/select.rs:253-257 | a WHERE yielding a non-boolean is a guard error and leaves the group table untouched |
| SelectProperties.EvaluationErrorsAreReturned | tremor-pipeline/src/op/trickle/select.rs:236-384 | a WHERE evaluation error, a GROUP BY evaluation error (with a window clause) and a projection error (without one) are each the event's error, with the group table unchanged |
| SelectProperties.AtMostOneOutputOnOut | tremor-pipeline/src/op/trickle/select.rs:340-410 | the output has at most one element; it is on port "out" and is the input event with only its payload replaced |
| SelectProperties.UnwindowedEmitsProjection | tremor-pipeline/src/op/trickle/select.rs:369-411 | without a window, an event passing WHERE is emitted with the projection as payload iff HAVING (null metadata) is true; it is dropped iff HAVING is false, and HAVING's error is the result otherwise; the table is untouched |
| SelectProperties.OnlyOwnGroupChanges | tremor-pipeline/src/op/trickle/select.rs:261-280 | no entry is ever removed, and the only entry that can appear or change is the one the event's GROUP BY key names |
| SelectProperties.NoGroupByUsesEmptyKey | tremor-pipeline/src/op/trickle/select.rs:262-275 | without GROUP BY, an admitted event's group is "" and the table's keys become the old keys plus "" |
| SelectProperties.MissingGroupStartsFromTemplates | tremor-pipeline/src/op/trickle/select.rs:276-280 | an unseen group behaves exactly as if an entry cloned from the call-sites and the window template had been in the table |
| SelectProperties.GroupsAreIndependent | tremor-pipeline/src/op/trickle/select.rs:276-281 | two tables that agree on the event's own group give the same output and the same new entry for it |
| SelectProperties.FirstEventInitsThenFolds | tremor-pipeline/src/op/trickle/select.rs:278-338 | a group's first event on a fresh tumbling window sets the boundary to `ingest_ns + size` and inits every call-site; it succeeds iff every call-site folds it, and then every call-site is folded and nothing is emitted |
| SelectProperties.RolloverProjectsStateBeforeEvent | tremor-pipeline/src/op/trickle/select.rs:281-368 | at a rollover the boundary moves to `ingest_ns + size`, and the projection sees the call-sites as earlier events left them (no `init`). A failed projection is the error, with the call-sites untouched. A failed fold is an error. Otherwise every call-site is folded and HAVING (null metadata) decides: one `("out", event)` carrying the projection when it passes or is absent, nothing when false, its error otherwise |
| SelectProperties.BeforeBoundaryOnlyFolds | tremor-pipeline/src/op/trickle/select.rs:193-338 | an event before the boundary leaves the window unchanged and does not evaluate the projection; it succeeds iff every call-site folds it, and then every call-site is folded and nothing is emitted |
| SelectProperties.EmittingEventProjectsStarted | tremor-pipeline/src/op/trickle/select.rs:281-368 | for any window strategy, an event whose window emits is projected over the call-sites after any `init`. A failed projection is the error, and the stepped window and any `init` stay. A failed fold is an error. Otherwise every call-site is folded and HAVING (null metadata) decides: one `("out", event)` carrying the projection when it passes or is absent, nothing when false, its error otherwise |
| SelectProperties.NoWindowFirstEventProjectsReset | tremor-pipeline/src/op/trickle/select.rs:281-309 | a group's first event on a `NoWindow` template opens and emits: the projection sees the call-sites reset by `init`, and a failed projection leaves the entry holding that reset and the set flag |
| SelectProperties.FirstWindowOpens | tremor-pipeline/src/op/trickle/select.rs:276-338 | from an empty table without GROUP BY, the first event creates group "", sets the boundary, inits and folds, and emits nothing |
| SelectProperties.FirstWindowContinues | tremor-pipeline/src/op/trickle/select.rs:193-338 | an event inside group ""'s window only folds into its call-sites and emits nothing |
| SelectProperties.FirstWindowFolds | tremor-pipeline/src/op/trickle/select.rs:176-338 | over a run of admitted events inside the first window, each yields nothing and the table is the one group with that boundary and the call-sites after `init` and the fold of every event in order |
| SelectProperties.FirstRolloverEmitsFold | tremor-pipeline/src/op/trickle/select.rs:176-368 | after such a run, the first event at or past the boundary yields the projection of that fold: its error, the fold's error, or HAVING's verdict on it with the event's payload replaced |
| SelectProperties.AccumulateFailureIsNotAtomic | tremor-pipeline/src/op/trickle/select.rs:276-338 | for a new or existing group at any window position, when some call-site's `accumulate` fails the event errors. The entry holds the stepped window and any `init`, the call-sites before the first failing one keep the fold, and the rest keep their state from before it |
| SelectTests.CountScenario | tremor-pipeline/src/op/trickle/select.rs:535-546 | `count()` at 0 s, 1 s, 15 s gives nothing, nothing, then 2 on "out" |
| SelectTests.SumScenario | tremor-pipeline/src/op/trickle/select.rs:522-533 | `sum(event.h2g2)` with 42 per event at 0 s, 1 s, 15 s gives nothing, nothing, then 84 on "out" |
| SelectTests.CountCarriesAcrossWindows | tremor-pipeline/src/op/trickle/select.rs:186-192 | with no `init` at a rollover, `count()` at 0 s, 1 s, 15 s, 30 s emits 2 and then 3 |
| SelectTests.WhereTrueScenario | tremor-pipeline/src/op/trickle/select.rs:548-585 | WHERE true, target 42 on the default window: nothing, nothing, then 42 |
| SelectTests.WhereTrueNoHavingScenario | tremor-pipeline/src/op/trickle/select.rs:587-630 | WHERE true, no HAVING, events at 0 s and 15 s: nothing, then 42 |
| SelectTests.HavingTrueScenario | tremor-pipeline/src/op/trickle/select.rs:710-758 | WHERE true and HAVING true: nothing at 0 s, then 42 at 15 s |
| SelectTests.WhereFalseScenario | tremor-pipeline/src/op/trickle/select.rs:632-669 | WHERE false gives no output and creates no group |
| SelectTests.WhereNotBoolScenario | tremor-pipeline/src/op/trickle/select.rs:671-708 | WHERE "snot" is an error and creates no group |
| SelectTests.HavingUnreachedScenario | tremor-pipeline/src/op/trickle/select.rs:760-864 | with HAVING false or HAVING an object, the first event only opens the window: no output, no error |
| SelectTests.UnwindowedScenario | tremor-pipeline/src/op/trickle/select.rs:369-411 | without a window, every event yields 42; a non-boolean WHERE or HAVING is an error; HAVING false yields nothing |
| SelectTests.HavingFalseStillFolds | tremor-pipeline/src/op/trickle/select.rs:340-356 | HAVING false hides the emission, but every event has still been counted |
| SelectTests.FailedFoldKeepsEarlierCallSites | tremor-pipeline/src/op/trickle/select.rs:311-338 | a `sum` that rejects its argument makes the event an error, yet the `count` before it has counted the event |

## Left out

- The expression interpreter is not part of this model. WHERE, HAVING, GROUP BY, the target and the aggregate arguments are arbitrary total functions of the environment. The constant pool, the local stack and `ExecOpts` are folded into those functions.
- Rendering a GROUP BY value to a string (`to_string`) belongs to the value library. It is the operator's `render` parameter, so two values with the same rendering share a group.
- Built-in aggregate bodies are not shown. `Count` and an integer-only `Sum` stand in for `stats::count` and `stats::sum`. The real `sum` yields a float (84.0); the model yields the integer 84.
- Timestamps and window sizes are unbounded naturals. The unchecked u64 addition `ingest_ns + size`, which can overflow in the source, is not modelled.
- The self-referential value and statement wrappers (`rental`, the unsafe `transmute`s) are modelled as ordinary exclusively owned state. Zero-copy borrowing and lifetimes are not modelled.
- Statements other than `select` reach `unreachable!()` in the source. The model's statement type holds only `select` statements.
- Aggregates.Accumulate: a failing `accumulate` is modelled as leaving its own call-site's state unchanged, because a body's `fold` returns either a new state or an error. The source's aggregate interface takes the instance mutably (select.rs:332), so a body could change its state before failing. `AccumulateFromStops` and `AccumulateFailureIsNotAtomic` state "the failing call-site is untouched" under this modelling; it holds in the source only when the failure is in argument evaluation.
- Error messages (`query_guard_not_bool`, `into_err`) are reduced to the error kinds `GuardNotBool`, `EvalError` and `AggrError`.
- The `Accumulate` enum is unused in the source and not modelled.
- Timer-driven window flushing does not exist in the source and is not modelled.
- The network source in `src/onramp/tcp2.rs` and the value wrapper in `tremor-script/src/lib.rs` are not part of this model. They are I/O and lifetime management, not operator logic.
- Select.TrickleSelect.OnGroupEvent: the source mutates the group's entry through a reference. The model keeps the window and call-sites in locals and writes the entry back after each step that changes it. Every return therefore sees the same table as the source.
