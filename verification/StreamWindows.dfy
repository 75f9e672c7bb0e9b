/**
 * Sliding-window aggregation: an event is put into every window of the last `size / slide` slides, full and old windows
 * are emitted, and very old ones are discarded. Times are counted in nanoseconds from the zero time, from which
 * `Truncate` counts too.
 */
module StreamWindows {

  datatype Event = Event(id: int, user: int, kind: int, time: int, value: real)

  // ---------- Which windows an event enters ----------

  const SECOND := 1_000_000_000

  /** Seconds from the zero time to the Unix epoch. */
  const UNIX_OFFSET := 62_135_596_800

  /** The WindowID: the start in whole Unix seconds. */
  datatype Id = Id(unix: int)

  function WindowId(start: int): Id {
    Id(start / SECOND - UNIX_OFFSET)
  }

  predicate Aligned(slide: int, start: int)
    requires slide > 0
  {
    start % slide == 0
  }

  /** The last aligned time not after this one. */
  function Truncate(time: int, slide: int): int
    requires slide > 0
  {
    time - time % slide
  }

  /** The part of the window size that whole slides make up. */
  function Span(size: int, slide: int): int
    requires slide > 0
  {
    size - size % slide
  }

  predicate Contains(size: int, start: int, time: int) {
    start <= time < start + size
  }

  /** The loop over the last size / slide slides puts an event of this time into the window that begins at `start`. */
  predicate Enters(size: int, slide: int, start: int, time: int)
    requires slide > 0
  {
    Aligned(slide, start) && start <= time < start + Span(size, slide)
  }

  /** Identifiers count whole seconds from the Unix epoch. */
  lemma WindowIdCountsSeconds(start: int)
    ensures var id := WindowId(start).unix;
      (id + UNIX_OFFSET) * SECOND <= start < (id + UNIX_OFFSET + 1) * SECOND
  {
  }

  lemma AlignedNeighbour(slide: int, start: int)
    requires slide > 0 && Aligned(slide, start)
    ensures Aligned(slide, start - slide) && Aligned(slide, start + slide)
  {
    var q := start / slide;
    assert (q - 1) * slide == start - slide && (q + 1) * slide == start + slide;
    ModOfProduct(q - 1, slide);
    ModOfProduct(q + 1, slide);
  }

  lemma Multiple(k: int, d: int)
    requires d > 0
    ensures k >= 1 ==> k * d >= d
    ensures k <= 0 ==> k * d <= 0
  {
    if k >= 1 {
      assert (k - 1) * d >= 0;
      assert k * d == (k - 1) * d + d;
    }
  }

  lemma ModOfProduct(q: int, slide: int)
    requires slide > 0
    ensures (q * slide) % slide == 0
  {
    var x := q * slide;
    var p, r := x / slide, x % slide;
    Multiple(q - p, slide);
    assert (q - p) * slide == r;
  }

  /** Two aligned starts that differ are at least a slide apart. */
  lemma AlignedApart(slide: int, s: int, r: int)
    requires slide > 0 && Aligned(slide, s) && Aligned(slide, r) && s < r
    ensures s + slide <= r
  {
    var p, q := s / slide, r / slide;
    Multiple(q - p, slide);
  }

  /** The window identifiers of different windows differ if and only if the slide is at least a second. */
  lemma IdsAreUniqueIff(slide: int)
    requires slide > 0
    ensures (forall s, r :: Aligned(slide, s) && Aligned(slide, r) && WindowId(s) == WindowId(r) ==> s == r) <==>
            slide >= SECOND
  {
    if slide >= SECOND {
      forall s, r | Aligned(slide, s) && Aligned(slide, r) && WindowId(s) == WindowId(r) ensures s == r {
        if s < r { AlignedApart(slide, s, r); } else if r < s { AlignedApart(slide, r, s); }
      }
    } else {
      ModOfProduct(0, slide);
      ModOfProduct(1, slide);
      assert Aligned(slide, 0) && Aligned(slide, slide) && WindowId(0) == WindowId(slide);
    }
  }

  /**
   * An event enters exactly the aligned windows that contain it, unless the slide does not divide the size and the event
   * lies in the gap that is left at the beginning of each slide.
   */
  lemma EntersAllIff(size: int, slide: int, time: int)
    requires slide > 0 && size >= 0
    ensures (forall start :: Aligned(slide, start) ==> (Enters(size, slide, start, time) <==> Contains(size, start, time))) <==>
            !(time % slide < size % slide)
  {
    MissedAligned(size, slide, time);
    if time % slide < size % slide {
      var missed := time - time % slide - Span(size, slide);
      assert Aligned(slide, missed) && Contains(size, missed, time) && !Enters(size, slide, missed, time);
    } else {
      forall start | Aligned(slide, start) ensures Enters(size, slide, start, time) <==> Contains(size, start, time) {
        EntersIfContained(size, slide, start, time);
      }
    }
  }

  lemma EntersIfContained(size: int, slide: int, start: int, time: int)
    requires slide > 0 && size >= 0 && !(time % slide < size % slide) && Aligned(slide, start)
    ensures Enters(size, slide, start, time) <==> Contains(size, start, time)
  {
    MissedAligned(size, slide, time);
    var r, gap := time % slide, size % slide;
    var missed := time - r - Span(size, slide);
    assert Span(size, slide) == size - gap && gap < slide;
    assert Aligned(slide, missed);
    hide Aligned, Span;
    if start < missed { AlignedApart(slide, start, missed); }
    if missed < start { AlignedApart(slide, missed, start); }
  }

  lemma MissedAligned(size: int, slide: int, time: int)
    requires slide > 0
    ensures Aligned(slide, time - time % slide) && Aligned(slide, time - time % slide - Span(size, slide))
  {
    var p, q := time / slide, size / slide;
    ModOfProduct(p, slide);
    ModOfProduct(p - q, slide);
  }

  /** The distance of the i-th of the windows from the first. */
  function Offset(i: nat, slide: int): int {
    if i == 0 then 0 else Offset(i - 1, slide) + slide
  }

  lemma {:induction false} OffsetIsProduct(i: nat, slide: int)
    ensures Offset(i, slide) == i * slide
  {
    if i > 0 { OffsetIsProduct(i - 1, slide); }
  }

  // ---------- A window and its tallies ----------

  datatype Option<T> = None | Some(value: T)

  /** No minimum and no maximum stand for plus and minus infinity. */
  datatype Window = Window(
    start: int,
    events: seq<Event>,
    eventCount: nat,
    totalValue: real,
    minValue: Option<real>,
    maxValue: Option<real>,
    userCounts: map<int, nat>,
    typeCounts: map<int, nat>)

  function NewWindow(start: int): Window {
    Window(start, [], 0, 0.0, None, None, map[], map[])
  }

  function Increment(counts: map<int, nat>, k: int): map<int, nat> {
    counts[k := (if k in counts then counts[k] else 0) + 1]
  }

  function AddEvent(w: Window, e: Event): Window {
    w.(events := w.events + [e],
       eventCount := w.eventCount + 1,
       totalValue := w.totalValue + e.value,
       minValue := Some(if w.minValue.Some? && w.minValue.value <= e.value then w.minValue.value else e.value),
       maxValue := Some(if w.maxValue.Some? && w.maxValue.value >= e.value then w.maxValue.value else e.value),
       userCounts := Increment(w.userCounts, e.user),
       typeCounts := Increment(w.typeCounts, e.kind))
  }

  function TotalOf(events: seq<Event>): real {
    if events == [] then 0.0 else TotalOf(events[..|events| - 1]) + events[|events| - 1].value
  }

  function OfUser(events: seq<Event>, user: int): nat {
    if events == [] then 0 else OfUser(events[..|events| - 1], user) + if events[|events| - 1].user == user then 1 else 0
  }

  function OfType(events: seq<Event>, kind: int): nat {
    if events == [] then 0 else OfType(events[..|events| - 1], kind) + if events[|events| - 1].kind == kind then 1 else 0
  }

  ghost predicate IsMin(events: seq<Event>, m: Option<real>) {
    && (m.None? <==> events == [])
    && (m.Some? ==> (forall i :: 0 <= i < |events| ==> m.value <= events[i].value) &&
                    exists i :: 0 <= i < |events| && m.value == events[i].value)
  }

  ghost predicate IsMax(events: seq<Event>, m: Option<real>) {
    && (m.None? <==> events == [])
    && (m.Some? ==> (forall i :: 0 <= i < |events| ==> m.value >= events[i].value) &&
                    exists i :: 0 <= i < |events| && m.value == events[i].value)
  }

  /** The tallies say about the list of events what they are named for, and name exactly the users and types in it. */
  ghost predicate Summarises(w: Window) {
    && w.eventCount == |w.events| && w.totalValue == TotalOf(w.events)
    && IsMin(w.events, w.minValue) && IsMax(w.events, w.maxValue)
    && (forall u :: u in w.userCounts <==> OfUser(w.events, u) > 0)
    && (forall u :: u in w.userCounts ==> w.userCounts[u] == OfUser(w.events, u))
    && (forall k :: k in w.typeCounts <==> OfType(w.events, k) > 0)
    && (forall k :: k in w.typeCounts ==> w.typeCounts[k] == OfType(w.events, k))
  }

  lemma AddMinMax(w: Window, e: Event)
    requires IsMin(w.events, w.minValue) && IsMax(w.events, w.maxValue)
    ensures IsMin(w.events + [e], AddEvent(w, e).minValue) && IsMax(w.events + [e], AddEvent(w, e).maxValue)
  {
    var events := w.events + [e];
    assert events[|w.events|] == e;
    if w.minValue.Some? {
      var i :| 0 <= i < |w.events| && w.minValue.value == w.events[i].value;
      var j :| 0 <= j < |w.events| && w.maxValue.value == w.events[j].value;
      assert events[i] == w.events[i] && events[j] == w.events[j];
    }
  }

  lemma AddSummarises(w: Window, e: Event)
    requires Summarises(w)
    ensures Summarises(AddEvent(w, e))
  {
    AddMinMax(w, e);
    assert (w.events + [e])[..|w.events|] == w.events;
    hide IsMin, IsMax;
  }

  // ---------- The windows of the aggregator ----------

  /** A window that has left the map: emitted to the workers, or discarded. */
  datatype Closed = Closed(window: Window, emitted: bool)

  type Windows = map<Id, Window>

  function OpenEvents(windows: Windows, start: int): seq<Event> {
    var id := WindowId(start);
    if id in windows && windows[id].start == start then windows[id].events else []
  }

  function ClosedEvents(closed: seq<Closed>, start: int): seq<Event> {
    if closed == [] then []
    else
      var w := closed[|closed| - 1].window;
      ClosedEvents(closed[..|closed| - 1], start) + if w.start == start then w.events else []
  }

  /** All events that were put into the windows with this start, in order. */
  function Held(windows: Windows, closed: seq<Closed>, start: int): seq<Event> {
    ClosedEvents(closed, start) + OpenEvents(windows, start)
  }

  /** The events of the stream for the window with this start. */
  function Assigned(size: int, slide: int, events: seq<Event>, start: int): seq<Event>
    requires slide > 0
  {
    if events == [] then []
    else
      var e := events[|events| - 1];
      Assigned(size, slide, events[..|events| - 1], start) + if Enters(size, slide, start, e.time) then [e] else []
  }

  /** The plain filter of the stream. */
  function Within(size: int, events: seq<Event>, start: int): seq<Event> {
    if events == [] then []
    else
      var e := events[|events| - 1];
      Within(size, events[..|events| - 1], start) + if Contains(size, start, e.time) then [e] else []
  }

  ghost predicate WindowOk(slide: int, id: Id, w: Window)
    requires slide > 0
  {
    w.events != [] && Aligned(slide, w.start) && WindowId(w.start) == id && Summarises(w)
  }

  ghost predicate WindowsOk(slide: int, windows: Windows)
    requires slide > 0
  {
    forall id :: id in windows ==> WindowOk(slide, id, windows[id])
  }

  /** The window with an aligned start, if it is in the map, is there under its identifier, and no other is. */
  lemma FoundById(slide: int, windows: Windows, start: int)
    requires slide >= SECOND && WindowsOk(slide, windows) && Aligned(slide, start)
    ensures WindowId(start) in windows ==> windows[WindowId(start)].start == start
  {
    IdsAreUniqueIff(slide);
    var id := WindowId(start);
    if id in windows {
      assert WindowOk(slide, id, windows[id]);
    }
  }

  function WindowFor(windows: Windows, start: int): Window {
    var id := WindowId(start);
    if id in windows then windows[id] else NewWindow(start)
  }

  lemma AddToHeld(windows: Windows, closed: seq<Closed>, start: int, e: Event)
    requires WindowId(start) in windows ==> windows[WindowId(start)].start == start
    ensures var windows' := windows[WindowId(start) := AddEvent(WindowFor(windows, start), e)];
      forall s :: Held(windows', closed, s) == Held(windows, closed, s) + OnlyIf(s == start, e)
  {
    var windows' := windows[WindowId(start) := AddEvent(WindowFor(windows, start), e)];
    hide WindowId, Increment, ClosedEvents;
    forall s ensures Held(windows', closed, s) == Held(windows, closed, s) + OnlyIf(s == start, e) {
      if s != start { assert OpenEvents(windows', s) == OpenEvents(windows, s); }
    }
  }

  lemma AddToWindow(slide: int, windows: Windows, closed: seq<Closed>, start: int, e: Event)
    requires slide >= SECOND && WindowsOk(slide, windows) && Aligned(slide, start)
    ensures var windows' := windows[WindowId(start) := AddEvent(WindowFor(windows, start), e)];
      && WindowsOk(slide, windows')
      && forall s :: Held(windows', closed, s) == Held(windows, closed, s) + OnlyIf(s == start, e)
  {
    var id, w := WindowId(start), WindowFor(windows, start);
    var windows' := windows[id := AddEvent(w, e)];
    FoundById(slide, windows, start);
    AddToHeld(windows, closed, start, e);
    if id in windows { assert WindowOk(slide, id, w); }
    AddSummarises(w, e);
    hide Summarises, WindowId, Aligned, Held;
    forall k | k in windows' ensures WindowOk(slide, k, windows'[k]) {
      if k != id { assert WindowOk(slide, k, windows[k]); }
    }
  }

  lemma ClosedSnoc(closed: seq<Closed>, c: Closed, start: int)
    ensures ClosedEvents(closed + [c], start) ==
            ClosedEvents(closed, start) + if c.window.start == start then c.window.events else []
  {
    assert (closed + [c])[..|closed|] == closed;
  }

  /** A window leaves the map: its events are recorded as closed, and no other window is touched. */
  lemma CloseWindow(slide: int, windows: Windows, closed: seq<Closed>, id: Id, emitted: bool)
    requires slide > 0 && WindowsOk(slide, windows) && id in windows
    ensures var windows', closed' := windows - {id}, closed + [Closed(windows[id], emitted)];
      && WindowsOk(slide, windows')
      && forall s :: Held(windows', closed', s) == Held(windows, closed, s)
  {
    hide Summarises, Aligned, ClosedEvents;
    var w := windows[id];
    var windows', closed' := windows - {id}, closed + [Closed(w, emitted)];
    assert WindowOk(slide, id, w);
    forall s ensures Held(windows', closed', s) == Held(windows, closed, s) {
      ClosedSnoc(closed, Closed(w, emitted), s);
      if s == w.start {
        assert OpenEvents(windows', s) == [] && OpenEvents(windows, s) == w.events;
      } else {
        assert OpenEvents(windows', s) == OpenEvents(windows, s);
      }
    }
  }

  // ---------- The loop over the slides ----------

  /** The start lies among the windows visited so far, from `first` down to the one before `next`. */
  predicate Visited(slide: int, first: int, next: int, start: int)
    requires slide > 0
  {
    Aligned(slide, start) && next < start <= first
  }

  lemma VisitNext(slide: int, first: int, next: int, start: int)
    requires slide > 0 && Aligned(slide, next) && next <= first
    ensures Visited(slide, first, next - slide, start) <==> Visited(slide, first, next, start) || start == next
  {
    AlignedNeighbour(slide, next);
    if Visited(slide, first, next - slide, start) {
      AlignedApart(slide, next - slide, start);
    }
  }

  lemma {:induction false} OffsetGrows(i: nat, n: nat, slide: int)
    requires slide >= 0 && i <= n
    ensures Offset(i, slide) <= Offset(n, slide)
  {
    if i < n { OffsetGrows(i, n - 1, slide); }
  }

  /** The loop makes as many rounds as whole slides fit into the window. */
  function Rounds(size: int, slide: int): int
    requires slide > 0
  {
    size / slide
  }

  lemma SpanIsOffset(size: int, slide: int)
    requires slide > 0 && size >= 0
    ensures Rounds(size, slide) >= 0 && Offset(Rounds(size, slide), slide) == Span(size, slide) <= size
  {
    OffsetIsProduct(size / slide, slide);
  }

  lemma TruncateIs(time: int, slide: int)
    requires slide > 0
    ensures Truncate(time, slide) <= time < Truncate(time, slide) + slide && Aligned(slide, Truncate(time, slide))
  {
    MissedAligned(0, slide, time);
  }

  function OnlyIf(here: bool, e: Event): seq<Event> {
    if here then [e] else []
  }

  /** The event was added to the visited windows and to no others. */
  ghost predicate AddedTo(
    windows0: Windows, closed0: seq<Closed>, windows: Windows, closed: seq<Closed>, e: Event, slide: int, first: int, next: int)
    requires slide > 0
  {
    forall s :: Held(windows, closed, s) == Held(windows0, closed0, s) + OnlyIf(Visited(slide, first, next, s), e)
  }

  lemma AddedNone(windows: Windows, closed: seq<Closed>, e: Event, slide: int, first: int)
    requires slide > 0
    ensures AddedTo(windows, closed, windows, closed, e, slide, first, first)
  {
    hide Held;
  }

  lemma AddedAll(
    windows0: Windows, closed0: seq<Closed>, windows: Windows, closed: seq<Closed>, events: seq<Event>, e: Event,
    size: int, slide: int)
    requires slide > 0 && size >= 0
    requires forall s :: Held(windows0, closed0, s) == Assigned(size, slide, events, s)
    requires var first := Truncate(e.time, slide);
      AddedTo(windows0, closed0, windows, closed, e, slide, first, first - Span(size, slide))
    ensures forall s :: Held(windows, closed, s) == Assigned(size, slide, events + [e], s)
  {
    forall s ensures Held(windows, closed, s) == Assigned(size, slide, events + [e], s) {
      assert (events + [e])[..|events|] == events;
      VisitedAll(size, slide, e.time, s);
      hide Held, Span, Aligned;
      assert Held(windows0, closed0, s) == Assigned(size, slide, events, s);
    }
  }

  /** A loop that ends before it has visited them all has left the event out of the window that was next. */
  lemma AddedNotAll(
    windows0: Windows, closed0: seq<Closed>, windows: Windows, closed: seq<Closed>, events: seq<Event>, e: Event,
    size: int, slide: int, next: int)
    requires slide > 0 && size >= 0 && Aligned(slide, next) && Truncate(e.time, slide) - Span(size, slide) < next
    requires next <= Truncate(e.time, slide)
    requires forall s :: Held(windows0, closed0, s) == Assigned(size, slide, events, s)
    requires AddedTo(windows0, closed0, windows, closed, e, slide, Truncate(e.time, slide), next)
    ensures Held(windows, closed, next) != Assigned(size, slide, events + [e], next)
  {
    assert (events + [e])[..|events|] == events;
    VisitedAll(size, slide, e.time, next);
    hide Held, Span;
    assert Held(windows, closed, next) == Assigned(size, slide, events, next);
    assert |Assigned(size, slide, events + [e], next)| == |Assigned(size, slide, events, next)| + 1;
  }

  // ---------- How many windows an event enters ----------

  /** The starts of the windows that the loop visits. */
  function Starts(size: int, slide: int, time: int): seq<int>
    requires slide > 0 && size >= 0
  {
    SpanIsOffset(size, slide);
    seq(Rounds(size, slide), i requires 0 <= i < Rounds(size, slide) => Truncate(time, slide) - Offset(i, slide))
  }

  /** An event enters exactly size / slide windows: those of this list, which names none twice. */
  lemma EntersSizeOverSlide(size: int, slide: int, time: int)
    requires slide > 0 && size >= 0
    ensures |Starts(size, slide, time)| == size / slide
    ensures forall i, j :: 0 <= i < j < |Starts(size, slide, time)| ==>
      Starts(size, slide, time)[j] < Starts(size, slide, time)[i]
    ensures forall start :: Enters(size, slide, start, time) <==> start in Starts(size, slide, time)
  {
    var starts, first := Starts(size, slide, time), Truncate(time, slide);
    SpanIsOffset(size, slide);
    forall i, j | 0 <= i < j < |starts| ensures starts[j] < starts[i] {
      OffsetGrows(i + 1, j, slide);
    }
    forall start | start in starts ensures Enters(size, slide, start, time) {
      var i :| 0 <= i < |starts| && starts[i] == start;
      VisitedOffset(slide, time, i);
      OffsetGrows(i + 1, |starts|, slide);
      VisitedAll(size, slide, time, start);
    }
    forall start | Enters(size, slide, start, time) ensures start in starts {
      VisitedAll(size, slide, time, start);
      var i := OffsetOf(size, slide, time, start);
      assert starts[i] == start;
    }
  }

  lemma {:induction false} VisitedOffset(slide: int, time: int, i: nat)
    requires slide > 0
    ensures Aligned(slide, Truncate(time, slide) - Offset(i, slide)) && Offset(i, slide) >= 0
  {
    TruncateIs(time, slide);
    if i > 0 {
      VisitedOffset(slide, time, i - 1);
      AlignedNeighbour(slide, Truncate(time, slide) - Offset(i - 1, slide));
      hide Aligned, Truncate;
    }
  }

  lemma OffsetOf(size: int, slide: int, time: int, start: int) returns (i: nat)
    requires slide > 0 && size >= 0
    requires Visited(slide, Truncate(time, slide), Truncate(time, slide) - Span(size, slide), start)
    ensures i < Rounds(size, slide) && start == Truncate(time, slide) - Offset(i, slide)
  {
    TruncateIs(time, slide);
    SpanIsOffset(size, slide);
    var first := Truncate(time, slide);
    var k := first / slide - start / slide;
    assert first == first / slide * slide && start == start / slide * slide;
    assert first - start == k * slide;
    Multiple(k + 1, slide);
    assert (k + 1) * slide == k * slide + slide;
    i := k;
    OffsetIsProduct(i, slide);
    if i >= Rounds(size, slide) { OffsetGrows(Rounds(size, slide), i, slide); }
  }

  /** The window is full, or its time is over. */
  predicate IsReady(w: Window, size: int, maxWindowSize: int, now: int) {
    |w.events| >= maxWindowSize || now - w.start >= size
  }

  /** It is over when its end has come. */
  lemma ReadyIff(w: Window, size: int, maxWindowSize: int, now: int)
    ensures IsReady(w, size, maxWindowSize, now) <==> |w.events| >= maxWindowSize || now >= w.start + size
  {
  }

  /** Only emitted windows were added to the closed ones, and they were full or old. */
  ghost predicate Emits(before: seq<Closed>, after: seq<Closed>, size: int, maxWindowSize: int, now: int) {
    && |before| <= |after| && after[..|before|] == before
    && forall i :: |before| <= i < |after| ==> after[i].emitted && IsReady(after[i].window, size, maxWindowSize, now)
  }

  lemma EmitsTransitive(a: seq<Closed>, b: seq<Closed>, c: seq<Closed>, size: int, maxWindowSize: int, now: int)
    requires Emits(a, b, size, maxWindowSize, now) && Emits(b, c, size, maxWindowSize, now)
    ensures Emits(a, c, size, maxWindowSize, now)
  {
    assert c[..|a|] == c[..|b|][..|a|];
    forall i | |a| <= i < |c| ensures c[i].emitted && IsReady(c[i].window, size, maxWindowSize, now) {
      if i < |b| { assert c[..|b|][i] == b[i]; }
    }
  }

  lemma EmitsOne(a: seq<Closed>, w: Window, size: int, maxWindowSize: int, now: int)
    requires IsReady(w, size, maxWindowSize, now)
    ensures Emits(a, a + [Closed(w, true)], size, maxWindowSize, now)
  {
  }

  lemma EmitsSelf(a: seq<Closed>, size: int, maxWindowSize: int, now: int)
    ensures Emits(a, a, size, maxWindowSize, now)
  {
  }

  lemma AddedNext(
    windows0: Windows, closed0: seq<Closed>, windows: Windows, closed: seq<Closed>, windows': Windows, closed': seq<Closed>,
    e: Event, slide: int, first: int, next: int)
    requires slide > 0 && Aligned(slide, next) && next <= first
    requires AddedTo(windows0, closed0, windows, closed, e, slide, first, next)
    requires forall s :: Held(windows', closed', s) == Held(windows, closed, s) + OnlyIf(s == next, e)
    ensures AddedTo(windows0, closed0, windows', closed', e, slide, first, next - slide)
  {
    hide Held, Aligned;
    forall s ensures Held(windows', closed', s) ==
                     Held(windows0, closed0, s) + OnlyIf(Visited(slide, first, next - slide, s), e)
    {
      VisitNext(slide, first, next, s);
    }
  }

  /** The visited windows are those that the event enters. */
  lemma VisitedAll(size: int, slide: int, time: int, start: int)
    requires slide > 0 && size >= 0
    ensures var first := Truncate(time, slide);
      Visited(slide, first, first - Span(size, slide), start) <==> Enters(size, slide, start, time)
  {
    var first := Truncate(time, slide);
    MissedAligned(size, slide, time);
    assert 0 <= time % slide < slide;
    if Aligned(slide, start) {
      hide Aligned, Span;
      if start > first { AlignedApart(slide, first, start); }
      if start > first - Span(size, slide) { AlignedApart(slide, first - Span(size, slide), start); }
    }
  }

  // ---------- Windows that leave the map ----------

  // ---------- What the loop over the slides does ----------

  /** The aggregator's settings, the time of the call, and what the channel and the context do with each window. */
  datatype Setting = Setting(size: int, slide: int, maxWindowSize: int, now: int, accepts: set<Id>, done: set<Id>)

  /** The map and the emitted windows after some rounds, their number, and whether the last one ended the loop. */
  datatype Round = Round(windows: Windows, emitted: seq<Closed>, visited: nat, cut: bool)

  function StartOf(c: Setting, e: Event, i: nat): int
    requires c.slide > 0
  {
    Truncate(e.time, c.slide) - Offset(i, c.slide)
  }

  function AddRound(c: Setting, r: Round, e: Event, start: int): Round {
    var id, w := WindowId(start), AddEvent(WindowFor(r.windows, start), e);
    var ready := IsReady(w, c.size, c.maxWindowSize, c.now);
    if ready && id in c.accepts then
      Round(r.windows - {id}, r.emitted + [Closed(w, true)], r.visited + 1, false)
    else Round(r.windows[id := w], r.emitted, r.visited + 1, ready && id in c.done)
  }

  function AfterRounds(c: Setting, windows: Windows, e: Event, n: nat): Round
    requires c.slide > 0
  {
    if n == 0 then Round(windows, [], 0, false)
    else
      var r := AfterRounds(c, windows, e, n - 1);
      if r.cut then r else AddRound(c, r, e, StartOf(c, e, n - 1))
  }

  /** The i-th window that the event enters, with the event. */
  function Entered(c: Setting, windows: Windows, e: Event, i: nat): Window
    requires c.slide > 0
  {
    AddEvent(WindowFor(windows, StartOf(c, e, i)), e)
  }

  predicate ReadyAt(c: Setting, windows: Windows, e: Event, i: nat)
    requires c.slide > 0
  {
    IsReady(Entered(c, windows, e, i), c.size, c.maxWindowSize, c.now)
  }

  /** At the i-th window the select takes the end of the context. */
  predicate EndsAt(c: Setting, windows: Windows, e: Event, i: nat)
    requires c.slide > 0
  {
    var id := WindowId(StartOf(c, e, i));
    ReadyAt(c, windows, e, i) && id !in c.accepts && id in c.done
  }

  /** The i-th window was emitted if it was ready and the channel took it; otherwise it is in the map. */
  predicate Placed(c: Setting, windows: Windows, e: Event, r: Round, i: nat)
    requires c.slide > 0
  {
    var id, w := WindowId(StartOf(c, e, i)), Entered(c, windows, e, i);
    if ReadyAt(c, windows, e, i) && id in c.accepts then id !in r.windows && Closed(w, true) in r.emitted
    else id in r.windows && r.windows[id] == w
  }

  predicate Untouched(c: Setting, windows: Windows, e: Event, r: Round, i: nat)
    requires c.slide > 0
  {
    WindowFor(r.windows, StartOf(c, e, i)) == WindowFor(windows, StartOf(c, e, i))
  }

  lemma IdsDiffer(c: Setting, e: Event, i: nat, j: nat)
    requires c.slide >= SECOND && i != j
    ensures WindowId(StartOf(c, e, i)) != WindowId(StartOf(c, e, j))
  {
    OffsetGrows(if i < j then i + 1 else j + 1, if i < j then j else i, c.slide);
    hide Truncate, Offset;
  }

  ghost predicate RoundOk(c: Setting, windows: Windows, e: Event, r: Round)
    requires c.slide > 0
  {
    && (forall i: nat :: i < r.visited ==> Placed(c, windows, e, r, i))
    && (forall i: nat :: r.visited <= i ==> Untouched(c, windows, e, r, i))
    && (forall i: nat :: i + 1 < r.visited ==> !EndsAt(c, windows, e, i))
    && (if r.cut then r.visited > 0 && EndsAt(c, windows, e, r.visited - 1)
        else r.visited > 0 ==> !EndsAt(c, windows, e, r.visited - 1))
  }

  lemma RoundKeeps(c: Setting, windows: Windows, e: Event, r: Round)
    requires c.slide >= SECOND && RoundOk(c, windows, e, r) && !r.cut
    ensures RoundOk(c, windows, e, AddRound(c, r, e, StartOf(c, e, r.visited)))
  {
    var n := r.visited;
    var r' := AddRound(c, r, e, StartOf(c, e, n));
    assert Untouched(c, windows, e, r, n);
    hide StartOf, AddEvent, IsReady, WindowId;
    forall i: nat | i < r'.visited ensures Placed(c, windows, e, r', i) {
      if i < n { assert Placed(c, windows, e, r, i); IdsDiffer(c, e, i, n); }
    }
    forall i: nat | r'.visited <= i ensures Untouched(c, windows, e, r', i) {
      assert Untouched(c, windows, e, r, i);
      IdsDiffer(c, e, i, n);
    }
  }

  /** Every visited window that is ready and that the channel takes is emitted, and every other one is in the map. */
  lemma {:induction false} VisitedArePlaced(c: Setting, windows: Windows, e: Event, n: nat)
    requires c.slide >= SECOND
    ensures var r := AfterRounds(c, windows, e, n);
      RoundOk(c, windows, e, r) && r.visited <= n && (!r.cut ==> r.visited == n)
  {
    if n > 0 {
      VisitedArePlaced(c, windows, e, n - 1);
      hide RoundOk, AddRound;
      var r := AfterRounds(c, windows, e, n - 1);
      if !r.cut {
        RoundKeeps(c, windows, e, r);
        VisitedOne(c, r, e, StartOf(c, e, n - 1));
      }
    }
  }

  lemma VisitedOne(c: Setting, r: Round, e: Event, start: int)
    ensures AddRound(c, r, e, start).visited == r.visited + 1
  {
  }

  /** The event enters all its windows if and only if the context ends at none of them but the last. */
  lemma EntersAllUnlessEnded(c: Setting, windows: Windows, e: Event, n: nat)
    requires c.slide >= SECOND
    ensures AfterRounds(c, windows, e, n).visited == n <==> forall i: nat :: i + 1 < n ==> !EndsAt(c, windows, e, i)
  {
    VisitedArePlaced(c, windows, e, n);
    hide Placed, Untouched, EndsAt, AfterRounds;
    var r := AfterRounds(c, windows, e, n);
    if r.visited < n { assert EndsAt(c, windows, e, r.visited - 1); }
  }

  lemma CutByContext(c: Setting, windows: Windows, e: Event, n: nat)
    requires c.slide >= SECOND && AfterRounds(c, windows, e, n).cut
    ensures c.done != {}
  {
    VisitedArePlaced(c, windows, e, n);
    hide Placed, Untouched, AfterRounds;
  }

  lemma {:induction false} RoundsStay(c: Setting, windows: Windows, e: Event, i: nat, n: nat)
    requires c.slide > 0 && i <= n && AfterRounds(c, windows, e, i).cut
    ensures AfterRounds(c, windows, e, n) == AfterRounds(c, windows, e, i)
  {
    hide AddRound;
    if i < n { RoundsStay(c, windows, e, i, n - 1); }
  }

  lemma NoRounds(c: Setting, windows: Windows, e: Event)
    requires c.slide > 0
    ensures AfterRounds(c, windows, e, 0) == Round(windows, [], 0, false)
  {
  }

  lemma StartIs(c: Setting, e: Event, i: nat)
    requires c.slide > 0
    ensures StartOf(c, e, i) == Truncate(e.time, c.slide) - Offset(i, c.slide)
  {
  }

  /** One round, as seen from the fields. */
  lemma NextAfter(
    c: Setting, windows0: Windows, e: Event, i: nat, closed0: seq<Closed>, windows: Windows, closed: seq<Closed>,
    windows': Windows, closed': seq<Closed>, cut: bool, start: int)
    requires c.slide > 0 && start == StartOf(c, e, i) && closed0 <= closed
    requires Round(windows, closed[|closed0|..], i, false) == AfterRounds(c, windows0, e, i)
    requires var id, w := WindowId(start), AddEvent(WindowFor(windows, start), e);
      var ready := IsReady(w, c.size, c.maxWindowSize, c.now);
      && cut == (ready && id !in c.accepts && id in c.done)
      && if ready && id in c.accepts then closed' == closed + [Closed(w, true)] && windows' == windows - {id}
         else closed' == closed && windows' == windows[id := w]
    ensures closed0 <= closed'
    ensures Round(windows', closed'[|closed0|..], i + 1, cut) == AfterRounds(c, windows0, e, i + 1)
  {
    NextRound(c, windows0, e, i);
    hide AfterRounds, IsReady, WindowFor, AddEvent, StartOf;
  }

  lemma NextRound(c: Setting, windows: Windows, e: Event, i: nat)
    requires c.slide > 0 && !AfterRounds(c, windows, e, i).cut
    ensures AfterRounds(c, windows, e, i + 1) == AddRound(c, AfterRounds(c, windows, e, i), e, StartOf(c, e, i))
  {
  }

  /** Exactly the windows with these identifiers have left the map and are recorded, as emitted or as discarded. */
  ghost predicate Closes(
    windows0: Windows, closed0: seq<Closed>, windows: Windows, closed: seq<Closed>, ids: set<Id>, emitted: set<Id>)
  {
    && ids <= windows0.Keys && windows == windows0 - ids
    && |closed| == |closed0| + |ids| && closed[..|closed0|] == closed0
    && forall id :: id in ids ==> Closed(windows0[id], id in emitted) in closed[|closed0|..]
  }

  lemma ClosedLeave(
    windows0: Windows, closed0: seq<Closed>, windows: Windows, closed: seq<Closed>, ids: set<Id>, emitted: set<Id>)
    requires Closes(windows0, closed0, windows, closed, ids, emitted)
    ensures windows == windows0 - ids
  {
  }

  lemma ClosesNone(windows: Windows, closed: seq<Closed>, emitted: set<Id>)
    ensures Closes(windows, closed, windows, closed, {}, emitted)
  {
    assert windows - {} == windows;
  }

  lemma ClosesOne(
    windows0: Windows, closed0: seq<Closed>, windows: Windows, closed: seq<Closed>, ids: set<Id>, emitted: set<Id>, id: Id)
    requires Closes(windows0, closed0, windows, closed, ids, emitted) && id in windows
    ensures Closes(windows0, closed0, windows - {id}, closed + [Closed(windows[id], id in emitted)], ids + {id}, emitted)
  {
    var c := Closed(windows[id], id in emitted);
    assert (closed + [c])[|closed0|..] == closed[|closed0|..] + [c];
  }

  /** Every assignment of the events is in exactly one window, open, emitted or discarded. */
  ghost predicate Accounts(windows: Windows, closed: seq<Closed>, size: int, slide: int, events: seq<Event>)
    requires slide > 0
  {
    forall start :: Held(windows, closed, start) == Assigned(size, slide, events, start)
  }

  lemma CloseKeepsAccounts(
    windows: Windows, closed: seq<Closed>, size: int, slide: int, events: seq<Event>, id: Id, emitted: bool)
    requires slide > 0 && WindowsOk(slide, windows) && id in windows && Accounts(windows, closed, size, slide, events)
    ensures WindowsOk(slide, windows - {id})
    ensures Accounts(windows - {id}, closed + [Closed(windows[id], emitted)], size, slide, events)
  {
    hide WindowsOk, Held;
    CloseWindow(slide, windows, closed, id, emitted);
  }

  /** A window that is recorded and still in the map is held twice. */
  lemma SentTwice(
    size: int, slide: int, windows: Windows, closed: seq<Closed>, events: seq<Event>, sent: set<Id>, id: Id)
    requires slide > 0 && WindowsOk(slide, windows) && id in sent && id in windows
    requires Accounts(windows - sent, closed, size, slide, events)
    ensures !Accounts(windows, closed, size, slide, events)
  {
    hide Assigned;
    var start := windows[id].start;
    assert WindowOk(slide, id, windows[id]);
    assert OpenEvents(windows, start) == windows[id].events && OpenEvents(windows - sent, start) == [];
    assert Held(windows, closed, start) != Held(windows - sent, closed, start);
  }

  function Due(windows: Windows, size: int, now: int, accepts: set<Id>): set<Id> {
    set id | id in windows && now - windows[id].start >= size && id in accepts
  }

  function Stale(windows: Windows, size: int, now: int): set<Id> {
    set id | id in windows && now - windows[id].start > size * 2
  }

  lemma StaleIff(windows: Windows, size: int, now: int, id: Id)
    requires id in windows
    ensures id in Stale(windows, size, now) <==> now > windows[id].start + 2 * size
  {
  }

  method CollectStale(windows: Windows, size: int, now: int) returns (stale: set<Id>)
    ensures stale == Stale(windows, size, now) && stale <= windows.Keys
  {
    stale := {};
    var todo := windows.Keys;
    while todo != {}
      invariant todo <= windows.Keys && stale == Stale(windows, size, now) - todo
      decreases |todo|
    {
      var id :| id in todo;
      todo := todo - {id};
      if now - windows[id].start > size * 2 {
        stale := stale + {id};
      }
    }
  }

  // ---------- The loop of the flush ----------

  datatype Flushed = Flushed(cut: bool, sent: set<Id>)

  /** The windows at which the select takes the end of the context. */
  function Blocked(windows: Windows, size: int, now: int, accepts: set<Id>, done: set<Id>): set<Id> {
    set id | id in windows && now - windows[id].start >= size && id !in accepts && id in done
  }

  /** What the loop has done when it has seen these windows, in this order. */
  function Flush(windows: Windows, size: int, now: int, accepts: set<Id>, done: set<Id>, order: seq<Id>): Flushed {
    if order == [] then Flushed(false, {})
    else
      var f, id := Flush(windows, size, now, accepts, done, order[..|order| - 1]), order[|order| - 1];
      if f.cut then f else Offer(windows, size, now, accepts, done, f, id)
  }

  /** One window. */
  function Offer(windows: Windows, size: int, now: int, accepts: set<Id>, done: set<Id>, f: Flushed, id: Id): Flushed {
    if id !in windows || now - windows[id].start < size then f
    else if id in accepts then f.(sent := f.sent + {id})
    else if id in done then f.(cut := true)
    else f
  }

  lemma FlushNext(windows: Windows, size: int, now: int, accepts: set<Id>, done: set<Id>, order: seq<Id>, i: nat)
    requires IsOrder(order, windows.Keys) && i < |order|
    requires !Flush(windows, size, now, accepts, done, order[..i]).cut
    ensures order[i] in windows && forall k :: i < k < |order| ==> order[k] != order[i]
    ensures Flush(windows, size, now, accepts, done, order[..i + 1]) ==
            Offer(windows, size, now, accepts, done, Flush(windows, size, now, accepts, done, order[..i]), order[i])
  {
    assert order[..i + 1][..i] == order[..i];
  }

  lemma FlushNone(windows: Windows, size: int, now: int, accepts: set<Id>, done: set<Id>)
    ensures Flush(windows, size, now, accepts, done, []) == Flushed(false, {})
  {
  }

  /** Go's map iteration visits every key once, in any order. */
  ghost predicate IsOrder(order: seq<Id>, keys: set<Id>) {
    && (forall i, j :: 0 <= i < j < |order| ==> order[i] != order[j])
    && forall id :: id in order <==> id in keys
  }

  /** The part of the due windows that has been seen is sent, unless the loop was cut short. */
  lemma {:induction false} FlushIs(windows: Windows, size: int, now: int, accepts: set<Id>, done: set<Id>, order: seq<Id>)
    ensures var f := Flush(windows, size, now, accepts, done, order);
      && f.sent <= Due(windows, size, now, accepts)
      && (forall id :: id in f.sent ==> id in order)
      && (!f.cut ==> forall id :: id in order && id in Due(windows, size, now, accepts) ==> id in f.sent)
      && (f.cut ==> Blocked(windows, size, now, accepts, done) != {})
  {
    if order != [] {
      var init, id := order[..|order| - 1], order[|order| - 1];
      assert order == init + [id];
      FlushIs(windows, size, now, accepts, done, init);
      assert forall k :: k in order <==> k in init || k == id;
      assert id in Blocked(windows, size, now, accepts, done) <==>
        id in windows && now - windows[id].start >= size && id !in accepts && id in done;
    }
  }

  lemma {:induction false} CutStays(
    windows: Windows, size: int, now: int, accepts: set<Id>, done: set<Id>, order: seq<Id>, more: seq<Id>)
    requires Flush(windows, size, now, accepts, done, order).cut
    ensures Flush(windows, size, now, accepts, done, order + more) == Flush(windows, size, now, accepts, done, order)
  {
    if more == [] {
      assert order + more == order;
    } else {
      assert (order + more)[..|order + more| - 1] == order + more[..|more| - 1];
      CutStays(windows, size, now, accepts, done, order, more[..|more| - 1]);
    }
  }

  lemma {:induction false} SomeOrder(keys: set<Id>) returns (order: seq<Id>)
    ensures IsOrder(order, keys)
    decreases |keys|
  {
    order := [];
    if id :| id in keys {
      var rest := SomeOrder(keys - {id});
      order := [id] + rest;
    }
  }

  lemma BlockedByContext(windows: Windows, size: int, now: int, accepts: set<Id>, done: set<Id>)
    ensures done == {} ==> Blocked(windows, size, now, accepts, done) == {}
  {
  }

  lemma DueIsKnown(windows: Windows, size: int, now: int, accepts: set<Id>, order: seq<Id>)
    requires IsOrder(order, windows.Keys)
    ensures forall id :: id in Due(windows, size, now, accepts) ==> id in order
  {
  }

  /** First a window that is sent, then one at which the context ends. */
  lemma CutFlush(windows: Windows, size: int, now: int, accepts: set<Id>, done: set<Id>, a: Id, b: Id) returns (order: seq<Id>)
    requires a in Due(windows, size, now, accepts) && b in Blocked(windows, size, now, accepts, done)
    ensures IsOrder(order, windows.Keys) && Flush(windows, size, now, accepts, done, order) == Flushed(true, {a})
  {
    var rest := SomeOrder(windows.Keys - {a, b});
    order := [a, b] + rest;
    assert [a, b][..1] == [a] && [a][..0] == [];
    assert Flush(windows, size, now, accepts, done, []) == Flushed(false, {});
    assert Flush(windows, size, now, accepts, done, [a]) == Flushed(false, {a});
    assert Flush(windows, size, now, accepts, done, [a, b]) == Flushed(true, {a});
    CutStays(windows, size, now, accepts, done, [a, b], rest);
  }

  /**
   * In every order of the map the flush ends without having sent a window that it leaves in the map, if and only if there
   * are not both a due window that the channel takes and a due one at which the context ends.
   */
  lemma FlushIsSafeIff(windows: Windows, size: int, now: int, accepts: set<Id>, done: set<Id>)
    ensures (forall order :: IsOrder(order, windows.Keys) ==>
              var f := Flush(windows, size, now, accepts, done, order); !(f.cut && f.sent != {})) <==>
            Due(windows, size, now, accepts) == {} || Blocked(windows, size, now, accepts, done) == {}
  {
    hide Flush, IsOrder, Due, Blocked;
    if Due(windows, size, now, accepts) == {} || Blocked(windows, size, now, accepts, done) == {} {
      forall order | IsOrder(order, windows.Keys)
        ensures var f := Flush(windows, size, now, accepts, done, order); !(f.cut && f.sent != {})
      {
        FlushIs(windows, size, now, accepts, done, order);
      }
    } else {
      var a :| a in Due(windows, size, now, accepts);
      var b :| b in Blocked(windows, size, now, accepts, done);
      var order := CutFlush(windows, size, now, accepts, done, a, b);
      var f := Flush(windows, size, now, accepts, done, order);
      assert a in f.sent;
    }
  }

  /** The loop itself: what is sent leaves `left`, the windows that are accounted for as open. */
  method SendDue(
      windows: Windows, size: int, now: int, accepts: set<Id>, done: set<Id>, order: seq<Id>,
      ghost closed: seq<Closed>, ghost slide: int, ghost events: seq<Event>)
    returns (cut: bool, toFlush: set<Id>, ghost left: Windows, ghost closed': seq<Closed>)
    requires slide > 0 && WindowsOk(slide, windows) && Accounts(windows, closed, size, slide, events)
    requires IsOrder(order, windows.Keys)
    ensures Flushed(cut, toFlush) == Flush(windows, size, now, accepts, done, order) && toFlush <= windows.Keys
    ensures left == windows - toFlush && Closes(windows, closed, left, closed', toFlush, accepts)
    ensures WindowsOk(slide, left) && Accounts(left, closed', size, slide, events)
  {
    hide Held, WindowsOk, Assigned, Closes, Accounts, Flush, IsOrder;
    FlushNone(windows, size, now, accepts, done);
    toFlush, left, closed' := {}, windows, closed;
    var i := 0;
    assert order[..i] == [];
    cut := false;
    ClosesNone(windows, closed, accepts);
    while i < |order| && !cut
      invariant 0 <= i <= |order|
      invariant Flushed(cut, toFlush) == Flush(windows, size, now, accepts, done, order[..i])
      invariant forall k :: i <= k < |order| ==> order[k] !in toFlush
      invariant toFlush <= windows.Keys && left == windows - toFlush
      invariant WindowsOk(slide, left) && Accounts(left, closed', size, slide, events)
      invariant Closes(windows, closed, left, closed', toFlush, accepts)
      decreases |order| - i
    {
      var id := order[i];
      FlushNext(windows, size, now, accepts, done, order, i);
      if now - windows[id].start >= size {
        if id in accepts {
          CloseKeepsAccounts(left, closed', size, slide, events, id, true);
          ClosesOne(windows, closed, left, closed', toFlush, accepts, id);
          closed', left, toFlush := closed' + [Closed(windows[id], true)], left - {id}, toFlush + {id};
        } else if id in done {
          cut := true;
        }
      }
      i := i + 1;
    }
    assert order[..|order|] == order;
    if cut {
      CutStays(windows, size, now, accepts, done, order[..i], order[i..]);
      assert order[..i] + order[i..] == order;
    }
  }

  // ---------- The aggregator ----------

  /**
   * `events` is every event that was assigned, and `closed` every window that has left the map, in order. Where a method
   * offers a window to the channel, what the select takes is the caller's choice: `accepts` holds the identifiers of the
   * windows that the channel takes, and `done` those at which it takes the end of the context instead.
   */
  class StreamAggregator {
    const size: int
    const slide: int
    const maxWindowSize: int
    var windows: Windows
    ghost var events: seq<Event>
    ghost var closed: seq<Closed>

    ghost predicate Shape()
      reads this
    {
      slide >= SECOND && size >= 0 && WindowsOk(slide, windows)
    }

    ghost predicate Valid()
      reads this
    {
      Shape() && Accounted()
    }

    /** Every assignment is in exactly one window, open, emitted or discarded. */
    ghost predicate Accounted()
      requires slide > 0
      reads this
    {
      Accounts(windows, closed, size, slide, events)
    }

    constructor (size: int, slide: int, maxWindowSize: int)
      requires slide >= SECOND && size >= 0
      ensures Valid() && events == [] && closed == []
      ensures this.size == size && this.slide == slide && this.maxWindowSize == maxWindowSize
    {
      this.size, this.slide, this.maxWindowSize := size, slide, maxWindowSize;
      windows, events, closed := map[], [], [];
    }

    /**
     * assignEventToWindows, at time `now`. The event enters the first `visited` of its size / slide windows, all of them
     * unless the context ends at one of them; so the accounts are right if and only if it does not end before the last.
     */
    method AssignEventToWindows(e: Event, now: int, accepts: set<Id>, done: set<Id>) returns (cut: bool, ghost visited: nat)
      requires Valid()
      modifies this
      ensures events == old(events) + [e] && WindowsOk(slide, windows)
      ensures var c := Setting(size, slide, maxWindowSize, now, accepts, done);
        var r := AfterRounds(c, old(windows), e, Rounds(size, slide));
        windows == r.windows && closed == old(closed) + r.emitted && visited == r.visited && cut == r.cut
      ensures visited <= Rounds(size, slide) && (!cut ==> visited == Rounds(size, slide)) && (done == {} ==> !cut)
      ensures AddedTo(old(windows), old(closed), windows, closed, e, slide,
                      Truncate(e.time, slide), Truncate(e.time, slide) - Offset(visited, slide))
      ensures Valid() <==> visited == Rounds(size, slide)
      ensures Emits(old(closed), closed, size, maxWindowSize, now)
    {
      hide WindowsOk, Held, Aligned, Span, WindowId, WindowFor, AddEvent, AddedTo, Emits, Assigned, Visited, Enters, OnlyIf;
      hide Truncate, Rounds, IsReady, AfterRounds, AddRound, StartOf;
      ghost var windows0, closed0 := windows, closed;
      ghost var c := Setting(size, slide, maxWindowSize, now, accepts, done);
      NoRounds(c, windows, e);
      var first := Truncate(e.time, slide);
      var n := Rounds(size, slide);
      TruncateIs(e.time, slide);
      SpanIsOffset(size, slide);
      AddedNone(windows, closed, e, slide, first);
      EmitsSelf(closed, size, maxWindowSize, now);
      var start := first;
      var i := 0;
      cut := false;
      while i < n && !cut
        invariant 0 <= i <= n && events == old(events)
        invariant closed0 <= closed
        invariant Round(windows, closed[|closed0|..], i, cut) == AfterRounds(c, windows0, e, i)
        invariant first - start == Offset(i, slide) && Aligned(slide, start) && start <= first
        invariant WindowsOk(slide, windows) && Emits(closed0, closed, size, maxWindowSize, now)
        invariant AddedTo(windows0, closed0, windows, closed, e, slide, first, start)
        decreases n - i
      {
        OffsetGrows(i + 1, n, slide);
        var end := start + size;
        assert start <= e.time < end;
        ghost var windows1, closed1 := windows, closed;
        if e.time >= start && e.time < end {
          cut := AddTo(e, start, now, accepts, done);
          StartIs(c, e, i);
          ReadyIff(AddEvent(WindowFor(windows1, start), e), size, maxWindowSize, now);
          NextAfter(c, windows0, e, i, closed0, windows1, closed1, windows, closed, cut, start);
        }
        EmitsTransitive(closed0, closed1, closed, size, maxWindowSize, now);
        AddedNext(windows0, closed0, windows1, closed1, windows, closed, e, slide, first, start);
        AlignedNeighbour(slide, start);
        start, i := start - slide, i + 1;
      }
      visited := i;
      if cut {
        RoundsStay(c, windows0, e, i, n);
        CutByContext(c, windows0, e, n);
      }
      if i == n {
        AddedAll(windows0, closed0, windows, closed, events, e, size, slide);
      } else {
        OffsetGrows(i + 1, n, slide);
        AddedNotAll(windows0, closed0, windows, closed, events, e, size, slide, start);
      }
      events := events + [e];
    }

    /** The body of the loop: the event goes into the window, which is then offered to the channel if it is full or old. */
    method AddTo(e: Event, start: int, now: int, accepts: set<Id>, done: set<Id>) returns (cut: bool)
      requires slide >= SECOND && WindowsOk(slide, windows) && Aligned(slide, start)
      modifies this`windows, this`closed
      ensures WindowsOk(slide, windows)
      ensures forall s :: Held(windows, closed, s) == old(Held(windows, closed, s)) + OnlyIf(s == start, e)
      ensures Emits(old(closed), closed, size, maxWindowSize, now)
      ensures var id, w := WindowId(start), AddEvent(WindowFor(old(windows), start), e);
        var ready := |w.events| >= maxWindowSize || now >= w.start + size;
        && cut == (ready && id !in accepts && id in done)
        && if ready && id in accepts then
             closed == old(closed) + [Closed(w, true)] && windows == old(windows) - {id}
           else closed == old(closed) && windows == old(windows)[id := w]
    {
      hide Held, WindowsOk, Aligned, WindowId, WindowFor, AddEvent, OnlyIf, Emits;
      var id := WindowId(start);
      AddToWindow(slide, windows, closed, start, e);
      EmitsSelf(closed, size, maxWindowSize, now);
      var window := AddEvent(WindowFor(windows, start), e);
      ghost var windows0 := windows;
      windows := windows[id := window];
      cut := false;
      if |window.events| >= maxWindowSize || now - window.start >= size {
        if id in accepts {
          CloseWindow(slide, windows, closed, id, true);
          EmitsOne(closed, window, size, maxWindowSize, now);
          closed, windows := closed + [Closed(window, true)], windows - {id};
        } else if id in done {
          cut := true;
        }
      }
    }

    /** Windows leave the map, which keeps the accounts as they are. */
    method CloseAll(ids: set<Id>, emitted: set<Id>)
      requires Shape() && ids <= windows.Keys
      modifies this`windows, this`closed
      ensures Shape() && (Accounted() <==> old(Accounted()))
      ensures Closes(old(windows), old(closed), windows, closed, ids, emitted)
    {
      hide Held, WindowsOk, Assigned, Closes;
      var todo := ids;
      ClosesNone(windows, closed, emitted);
      assert ids - todo == {};
      while todo != {}
        invariant todo <= ids && ids - todo <= ids && todo <= windows.Keys
        invariant Shape() && (Accounted() <==> old(Accounted()))
        invariant Closes(old(windows), old(closed), windows, closed, ids - todo, emitted)
        decreases |todo|
      {
        var id :| id in todo;
        CloseWindow(slide, windows, closed, id, id in emitted);
        ClosesOne(old(windows), old(closed), windows, closed, ids - todo, emitted, id);
        closed := closed + [Closed(windows[id], id in emitted)];
        windows := windows - {id};
        assert ids - todo + {id} == ids - (todo - {id});
        todo := todo - {id};
      }
      assert ids - todo == ids;
    }

    /**
     * checkAndFlushWindows emits the windows that are old enough and that the channel takes, and then deletes them. When
     * the context ends in between it returns at once: then the windows in `sent` are emitted and still in the map. So the
     * accounts are right if and only if the loop is not cut short after a window was sent. `order` is that of the map.
     */
    method CheckAndFlushWindows(now: int, accepts: set<Id>, done: set<Id>, order: seq<Id>)
      returns (cut: bool, ghost sent: set<Id>)
      requires Valid() && IsOrder(order, windows.Keys)
      modifies this`windows, this`closed
      ensures Flushed(cut, sent) == Flush(old(windows), size, now, accepts, done, order) && (done == {} ==> !cut)
      ensures sent <= Due(old(windows), size, now, accepts)
      ensures Closes(old(windows), old(closed), old(windows) - sent, closed, sent, accepts)
      ensures if cut then windows == old(windows)
        else sent == Due(old(windows), size, now, accepts) && windows == old(windows) - sent
      ensures WindowsOk(slide, windows)
      ensures Valid() <==> !(cut && sent != {})
    {
      hide Held, WindowsOk, Assigned, Closes, Accounts, Due, Flush, IsOrder;
      ghost var left, closed';
      var toFlush;
      cut, toFlush, left, closed' := SendDue(windows, size, now, accepts, done, order, closed, slide, events);
      FlushIs(windows, size, now, accepts, done, order);
      BlockedByContext(windows, size, now, accepts, done);
      sent := toFlush;
      closed := closed';
      if cut {
        if id :| id in sent { SentTwice(size, slide, windows, closed, events, sent, id); }
        assert sent == {} ==> left == windows;
        return;
      }
      assert toFlush == Due(windows, size, now, accepts) by { DueIsKnown(windows, size, now, accepts, order); }
      windows := windows - toFlush;
    }

    /** performCleanup discards the windows that began more than two window sizes ago. */
    method PerformCleanup(now: int)
      requires Shape()
      modifies this`windows, this`closed
      ensures Shape() && (Accounted() <==> old(Accounted()))
      ensures Closes(old(windows), old(closed), windows, closed, Stale(old(windows), size, now), {})
      ensures forall id :: id in windows <==> id in old(windows) && now <= old(windows)[id].start + 2 * size
    {
      var toDelete := CollectStale(windows, size, now);
      forall id | id in windows ensures id !in toDelete <==> now <= windows[id].start + 2 * size {
        StaleIff(windows, size, now, id);
      }
      hide Closes, Stale, Held, WindowsOk;
      CloseAll(toDelete, {});
      ClosedLeave(old(windows), old(closed), windows, closed, toDelete, {});
    }

    /**
     * flushRemainingWindows empties the map; a window that the channel does not take in time is discarded. The
     * accounts stay what they were, right or, after a flush that was cut short, wrong.
     */
    method FlushRemainingWindows(accepts: set<Id>)
      requires Shape()
      modifies this`windows, this`closed
      ensures Shape() && (Accounted() <==> old(Accounted())) && windows == map[]
      ensures Closes(old(windows), old(closed), windows, closed, old(windows).Keys, accepts)
    {
      CloseAll(windows.Keys, accepts);
    }

    /**
     * Nothing is missed, duplicated or lost silently: the windows with one start, closed and open together, hold exactly
     * the events of the stream between its start and its end, in the order of the stream, and every open window's tallies
     * summarise it.
     */
    lemma WindowsAreTheStream(start: int)
      requires Valid() && Aligned(slide, start)
      requires forall i :: 0 <= i < |events| ==> !(events[i].time % slide < size % slide)
      ensures Held(windows, closed, start) == Within(size, events, start)
      ensures WindowId(start) in windows ==>
        windows[WindowId(start)].start == start && Summarises(windows[WindowId(start)])
    {
      FoundById(slide, windows, start);
      if WindowId(start) in windows { assert WindowOk(slide, WindowId(start), windows[WindowId(start)]); }
      AssignedIsWithin(size, slide, events, start);
    }
  }

  lemma {:induction false} AssignedIsWithin(size: int, slide: int, events: seq<Event>, start: int)
    requires slide > 0 && size >= 0 && Aligned(slide, start)
    requires forall i :: 0 <= i < |events| ==> !(events[i].time % slide < size % slide)
    ensures Assigned(size, slide, events, start) == Within(size, events, start)
  {
    if events != [] {
      AssignedIsWithin(size, slide, events[..|events| - 1], start);
      EntersIfContained(size, slide, start, events[|events| - 1].time);
    }
  }
}
