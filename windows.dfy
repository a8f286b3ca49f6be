/** Window strategies: a closed set of state machines that map each event's
    ingest timestamp to a report `{open, emit}` and a new window state. */
module Windows {
  import opened Values

  /** `open`: a new window starts with this event; `emit`: the window before
      this event closes and its result is produced. */
  datatype WindowEvent = WindowEvent(open: bool, emit: bool)

  /** Every event is its own window; `open` records that the first event was seen. */
  datatype NoWindow = NoWindow(open: bool)

  /** Tumbling window of `size` nanoseconds of event time; `nextWindow` is the
      boundary at which the current window closes, absent before the first event. */
  datatype TumblingWindowOnEventTime = TumblingWindowOnEventTime(nextWindow: Option<nat>, size: nat)

  /** The closed sum of strategies, dispatched exhaustively. */
  datatype WindowImpl =
    | Tumbling(tumbling: TumblingWindowOnEventTime)
    | No(no: NoWindow)

  /** What one event does to a window: the report and the window's next state. */
  datatype Stepped<W> = Stepped(event: WindowEvent, next: W)

  const DEFAULT_SIZE: nat := 15_000_000_000

  /** The default window: a 15 second tumbling window with no boundary yet. */
  function DefaultWindow(): (w: WindowImpl)
    ensures w.Tumbling? && w.tumbling.nextWindow.None?
    ensures w.tumbling.size == 15 * 1_000_000_000
  {
    Tumbling(TumblingWindowOnEventTime(None, DEFAULT_SIZE))
  }

  /** The first event opens and emits; every later one only emits. */
  function NoWindowOnEvent(w: NoWindow): (r: Stepped<NoWindow>)
    ensures r.event.emit && r.next.open
    ensures r.event.open <==> !w.open
  {
    if w.open then
      Stepped(WindowEvent(false, true), w)
    else
      Stepped(WindowEvent(true, true), NoWindow(true))
  }

  /** The first event opens the window and sets the boundary; an event at or
      past the boundary emits and moves the boundary to its own timestamp plus
      the size, without reporting `open`; any other event changes nothing. */
  function TumblingOnEvent(w: TumblingWindowOnEventTime, ingestNs: nat): (r: Stepped<TumblingWindowOnEventTime>)
    ensures r.next.size == w.size && r.next.nextWindow.Some?
    ensures r.event.open <==> w.nextWindow.None?
    ensures r.event.emit <==> w.nextWindow.Some? && w.nextWindow.value <= ingestNs
    ensures r.event.open || r.event.emit ==> r.next.nextWindow == Some(ingestNs + w.size)
    ensures !r.event.open && !r.event.emit ==> r.next == w
  {
    match w.nextWindow
    case None =>
      Stepped(WindowEvent(true, false), w.(nextWindow := Some(ingestNs + w.size)))
    case Some(next) =>
      if next <= ingestNs then
        Stepped(WindowEvent(false, true), w.(nextWindow := Some(ingestNs + w.size)))
      else
        Stepped(WindowEvent(false, false), w)
  }

  /** Dispatch to the strategy a window holds; the strategy never changes. */
  function OnEvent(w: WindowImpl, ingestNs: nat): (r: Stepped<WindowImpl>)
    ensures SameStrategy(r.next, w)
    ensures w.No? ==> r.event.emit
    ensures w.Tumbling? ==> !(r.event.open && r.event.emit)
  {
    match w
    case Tumbling(t) =>
      var s := TumblingOnEvent(t, ingestNs);
      Stepped(s.event, Tumbling(s.next))
    case No(n) =>
      var s := NoWindowOnEvent(n);
      Stepped(s.event, No(s.next))
  }

  /** Two windows run the same strategy (and, for tumbling windows, the same size). */
  ghost predicate SameStrategy(a: WindowImpl, b: WindowImpl) {
    a.Tumbling? == b.Tumbling? && (a.Tumbling? ==> a.tumbling.size == b.tumbling.size)
  }

  /** The reports a window gives for a sequence of event timestamps. */
  function Reports(w: WindowImpl, ts: seq<nat>): (r: seq<WindowEvent>)
    ensures |r| == |ts|
    decreases |ts|
  {
    if ts == [] then []
    else
      var s := OnEvent(w, ts[0]);
      [s.event] + Reports(s.next, ts[1..])
  }

  /** Without a window every event emits, and only the very first one opens. */
  lemma {:induction false} NoWindowEmitsEveryEvent(n: NoWindow, ts: seq<nat>)
    ensures forall i :: 0 <= i < |ts| ==> Reports(No(n), ts)[i].emit
    ensures forall i :: 0 <= i < |ts| ==> (Reports(No(n), ts)[i].open <==> i == 0 && !n.open)
    decreases |ts|
  {
    if ts != [] {
      var s := NoWindowOnEvent(n);
      NoWindowEmitsEveryEvent(s.next, ts[1..]);
      assert Reports(No(n), ts) == [s.event] + Reports(No(s.next), ts[1..]);
    }
  }

  /** A tumbling window reports `open` only for its very first event, and never
      reports `open` and `emit` together: a rollover does not reopen it. */
  lemma {:induction false} TumblingOpensOnlyOnce(t: TumblingWindowOnEventTime, ts: seq<nat>)
    ensures forall i :: 0 <= i < |ts| ==>
      (Reports(Tumbling(t), ts)[i].open <==> i == 0 && t.nextWindow.None?)
    ensures forall i :: 0 <= i < |ts| ==>
      !(Reports(Tumbling(t), ts)[i].open && Reports(Tumbling(t), ts)[i].emit)
    decreases |ts|
  {
    if ts != [] {
      var s := TumblingOnEvent(t, ts[0]);
      TumblingOpensOnlyOnce(s.next, ts[1..]);
      assert Reports(Tumbling(t), ts) == [s.event] + Reports(Tumbling(s.next), ts[1..]);
    }
  }

  /** Once a boundary is set, events before it are silent and leave the window
      as it is; the first event at or past it emits. */
  lemma {:induction false} TumblingEmitsAtBoundary(t: TumblingWindowOnEventTime, ts: seq<nat>, k: nat)
    requires t.nextWindow.Some?
    requires k < |ts| && t.nextWindow.value <= ts[k]
    requires forall j :: 0 <= j < k ==> ts[j] < t.nextWindow.value
    ensures forall j :: 0 <= j < k ==> Reports(Tumbling(t), ts)[j] == WindowEvent(false, false)
    ensures Reports(Tumbling(t), ts)[k] == WindowEvent(false, true)
    decreases k
  {
    var s := TumblingOnEvent(t, ts[0]);
    assert Reports(Tumbling(t), ts) == [s.event] + Reports(Tumbling(s.next), ts[1..]);
    if k > 0 {
      assert s.next == t;
      TumblingEmitsAtBoundary(t, ts[1..], k - 1);
    }
  }

  /** A fresh tumbling window of size `d` opens on the first event at `ts[0]`,
      stays silent for every event before `ts[0] + d`, and emits on the first
      event at or after it. */
  lemma TumblingFirstWindow(d: nat, ts: seq<nat>, k: nat)
    requires 0 < k < |ts| && ts[0] + d <= ts[k]
    requires forall j :: 0 < j < k ==> ts[j] < ts[0] + d
    ensures Reports(Tumbling(TumblingWindowOnEventTime(None, d)), ts)[0] == WindowEvent(true, false)
    ensures forall j :: 0 < j < k ==>
      Reports(Tumbling(TumblingWindowOnEventTime(None, d)), ts)[j] == WindowEvent(false, false)
    ensures Reports(Tumbling(TumblingWindowOnEventTime(None, d)), ts)[k] == WindowEvent(false, true)
  {
    var t := TumblingWindowOnEventTime(None, d);
    var s := TumblingOnEvent(t, ts[0]);
    assert Reports(Tumbling(t), ts) == [s.event] + Reports(Tumbling(s.next), ts[1..]);
    TumblingEmitsAtBoundary(s.next, ts[1..], k - 1);
  }
}
