/**
 * The fallback manager: the number of requests that execute at a time is limited by an atomic counter that is raised
 * before it is compared, and the mode follows the error rate of the last results.
 */
module FallbackManager {
  import opened SlidingWindow

  // ---------- Slots ----------

  /** A call of Execute. `Over` has raised the counter beyond the limit and has still to lower it. */
  datatype Call = Over | Executing | Returned(executed: bool)

  datatype Slots = Slots(active: int, calls: seq<Call>)

  datatype SlotStep = Enter | Refuse(call: nat) | Leave(call: nat)

  /** One atomic operation; one that cannot happen changes nothing. */
  function ApplySlot(limit: int, s: Slots, step: SlotStep): Slots {
    match step
    case Enter => Slots(s.active + 1, s.calls + [if s.active + 1 > limit then Over else Executing])
    case Refuse(i) =>
      if i < |s.calls| && s.calls[i].Over? then Slots(s.active - 1, s.calls[i := Returned(false)]) else s
    case Leave(i) =>
      if i < |s.calls| && s.calls[i].Executing? then Slots(s.active - 1, s.calls[i := Returned(true)]) else s
  }

  function ExecSlots(limit: int, steps: seq<SlotStep>): Slots {
    if steps == [] then Slots(0, [])
    else ApplySlot(limit, ExecSlots(limit, steps[..|steps| - 1]), steps[|steps| - 1])
  }

  function Number(calls: seq<Call>, call: Call): nat {
    if calls == [] then 0 else Number(calls[..|calls| - 1], call) + if calls[|calls| - 1] == call then 1 else 0
  }

  lemma {:induction false} NumberUpdate(calls: seq<Call>, i: nat, x: Call, call: Call)
    requires i < |calls|
    ensures Number(calls[i := x], call) + (if calls[i] == call then 1 else 0) ==
            Number(calls, call) + if x == call then 1 else 0
  {
    var n := |calls| - 1;
    if i < n {
      assert calls[i := x][..n] == calls[..n][i := x];
      NumberUpdate(calls[..n], i, x, call);
    } else {
      assert calls[i := x][..n] == calls[..n];
    }
  }

  function Limit(limit: int): nat {
    if limit < 0 then 0 else limit
  }

  ghost predicate SlotsOk(limit: int, s: Slots) {
    s.active == Number(s.calls, Executing) + Number(s.calls, Over) && Number(s.calls, Executing) <= Limit(limit)
  }

  lemma SlotStepOk(limit: int, s: Slots, step: SlotStep)
    requires SlotsOk(limit, s)
    ensures SlotsOk(limit, ApplySlot(limit, s, step))
  {
    var s' := ApplySlot(limit, s, step);
    match step {
      case Enter =>
        assert s'.calls[..|s.calls|] == s.calls;
      case Refuse(i) =>
        if i < |s.calls| {
          NumberUpdate(s.calls, i, Returned(false), Executing);
          NumberUpdate(s.calls, i, Returned(false), Over);
        }
      case Leave(i) =>
        if i < |s.calls| {
          NumberUpdate(s.calls, i, Returned(true), Executing);
          NumberUpdate(s.calls, i, Returned(true), Over);
        }
    }
  }

  /** In every run the number of executing requests keeps to the limit, and the counter returns what it took. */
  lemma {:induction false} ExecutingIsBounded(limit: int, steps: seq<SlotStep>)
    ensures var s := ExecSlots(limit, steps);
      s.active == Number(s.calls, Executing) + Number(s.calls, Over) && Number(s.calls, Executing) <= Limit(limit)
  {
    if steps != [] {
      ExecutingIsBounded(limit, steps[..|steps| - 1]);
      SlotStepOk(limit, ExecSlots(limit, steps[..|steps| - 1]), steps[|steps| - 1]);
    }
  }

  /**
   * A request is refused if and only if the executing requests and those being refused at that moment fill the limit. So
   * where nothing is being refused, one is refused only for want of a slot.
   */
  lemma RefusedIff(limit: int, steps: seq<SlotStep>)
    ensures var s := ExecSlots(limit, steps);
      var last := ApplySlot(limit, s, Enter).calls[|s.calls|];
      if Number(s.calls, Executing) + Number(s.calls, Over) >= limit then last.Over? else last.Executing?
  {
    hide ExecSlots;
    ExecutingIsBounded(limit, steps);
  }

  /** A request that ends, and one that is refused, give back their place; then they have returned. */
  lemma PlacesAreGivenBack(limit: int, s: Slots, i: nat)
    requires i < |s.calls|
    ensures var left, refused := ApplySlot(limit, s, Leave(i)), ApplySlot(limit, s, Refuse(i));
      && (if s.calls[i].Executing? then left == Slots(s.active - 1, s.calls[i := Returned(true)]) else left == s)
      && (if s.calls[i].Over? then refused == Slots(s.active - 1, s.calls[i := Returned(false)]) else refused == s)
  {
  }

  lemma {:induction false} NoneLeft(calls: seq<Call>)
    requires forall i :: 0 <= i < |calls| ==> calls[i].Returned?
    ensures Number(calls, Executing) == 0 && Number(calls, Over) == 0
  {
    if calls != [] { NoneLeft(calls[..|calls| - 1]); }
  }

  /** The counter returns to zero: when every call has returned, no place is taken. */
  lemma CounterReturns(limit: int, steps: seq<SlotStep>)
    requires forall i :: 0 <= i < |ExecSlots(limit, steps).calls| ==> ExecSlots(limit, steps).calls[i].Returned?
    ensures ExecSlots(limit, steps).active == 0
  {
    hide ExecSlots;
    ExecutingIsBounded(limit, steps);
    NoneLeft(ExecSlots(limit, steps).calls);
  }

  // ---------- Modes ----------

  datatype Mode = Normal | Fallback | Transition

  datatype Config = Config(
    errorRateThreshold: real,
    recoveryThreshold: real,
    minimumRequestCount: int,
    slidingWindowSize: nat,
    transitionDuration: int)

  datatype Manager = Manager(mode: Mode, lastModeChange: int, history: seq<Outcome>)

  function TransitionTo(m: Manager, mode: Mode, now: int): Manager {
    if m.mode == mode then m else m.(mode := mode, lastModeChange := now)
  }

  function Evaluate(c: Config, m: Manager, now: int): Manager {
    var window := Last(m.history, c.slidingWindowSize);
    var rate := Rate(Failures, window);
    if |window| < c.minimumRequestCount then m else
    match m.mode
    case Normal => if rate >= c.errorRateThreshold then TransitionTo(m, Fallback, now) else m
    case Fallback => if rate <= c.recoveryThreshold then TransitionTo(m, Transition, now) else m
    case Transition =>
      if now - m.lastModeChange < c.transitionDuration then m
      else TransitionTo(m, if rate <= c.recoveryThreshold then Normal else Fallback, now)
  }

  datatype Event = Record(outcome: Outcome) | Tick(now: int) | Reset(now: int)

  /** A change of mode with the results on which it was decided. */
  datatype Change = Change(mode: Mode, time: int, window: seq<Outcome>)

  /** `changes` are the changes since the manager was made or reset. */
  datatype Run = Run(manager: Manager, changes: seq<Change>)

  function NewRun(now: int): Run {
    Run(Manager(Normal, now, []), [Change(Normal, now, [])])
  }

  function Apply(c: Config, r: Run, e: Event): Run {
    match e
    case Record(o) => r.(manager := r.manager.(history := r.manager.history + [o]))
    case Tick(now) =>
      var m := Evaluate(c, r.manager, now);
      Run(m, if m.mode == r.manager.mode then r.changes
             else r.changes + [Change(m.mode, now, Last(m.history, c.slidingWindowSize))])
    case Reset(now) => NewRun(now)
  }

  function Exec(c: Config, start: int, events: seq<Event>): Run {
    if events == [] then NewRun(start)
    else Apply(c, Exec(c, start, events[..|events| - 1]), events[|events| - 1])
  }

  /** The second mode may follow the first, on these results and after this time. */
  ghost predicate MayFollow(c: Config, before: Change, after: Change) {
    var rate := Rate(Failures, after.window);
    && |after.window| >= c.minimumRequestCount
    && match before.mode
       case Normal => after.mode.Fallback? && rate >= c.errorRateThreshold
       case Fallback => after.mode.Transition? && rate <= c.recoveryThreshold
       case Transition =>
         && after.time >= before.time + c.transitionDuration
         && (if after.mode.Normal? then rate <= c.recoveryThreshold else after.mode.Fallback? && rate > c.recoveryThreshold)
  }

  ghost predicate ChangesOk(c: Config, r: Run) {
    && r.changes != []
    && r.changes[|r.changes| - 1].mode == r.manager.mode && r.changes[|r.changes| - 1].time == r.manager.lastModeChange
    && forall k :: 0 < k < |r.changes| ==> MayFollow(c, r.changes[k - 1], r.changes[k])
  }

  lemma {:induction false} Reachable(c: Config, start: int, events: seq<Event>)
    ensures ChangesOk(c, Exec(c, start, events))
  {
    if events != [] {
      Reachable(c, start, events[..|events| - 1]);
    }
  }

  /**
   * The way back from FALLBACK to NORMAL takes two decisions on enough results with a low error rate, and the whole
   * transition period between them.
   */
  lemma RecoveryTakesTime(c: Config, start: int, events: seq<Event>, k: nat)
    requires var changes := Exec(c, start, events).changes; 0 < k < |changes| && changes[k].mode.Normal?
    ensures var changes := Exec(c, start, events).changes;
      && k >= 3 && changes[k - 1].mode.Transition? && changes[k - 2].mode.Fallback?
      && changes[k].time - changes[k - 1].time >= c.transitionDuration
      && Rate(Failures, changes[k].window) <= c.recoveryThreshold && |changes[k].window| >= c.minimumRequestCount
      && Rate(Failures, changes[k - 1].window) <= c.recoveryThreshold && |changes[k - 1].window| >= c.minimumRequestCount
  {
    hide Exec;
    var changes := Exec(c, start, events).changes;
    Reachable(c, start, events);
    StartsNormal(c, start, events);
    assert MayFollow(c, changes[k - 1], changes[k]);
    if k >= 2 { assert MayFollow(c, changes[k - 2], changes[k - 1]); }
  }

  lemma {:induction false} StartsNormal(c: Config, start: int, events: seq<Event>)
    ensures var changes := Exec(c, start, events).changes; changes != [] && changes[0].mode.Normal?
  {
    if events != [] {
      StartsNormal(c, start, events[..|events| - 1]);
    }
  }

  /** The results that were recorded since the manager was made or reset. */
  function Results(events: seq<Event>): seq<Outcome> {
    if events == [] then []
    else
      var before, last := Results(events[..|events| - 1]), events[|events| - 1];
      match last
      case Record(o) => before + [o]
      case Tick(_) => before
      case Reset(_) => []
  }

  lemma {:induction false} HistoryIsResults(c: Config, start: int, events: seq<Event>)
    ensures Exec(c, start, events).manager.history == Results(events)
  {
    hide Rate, Last;
    if events != [] { HistoryIsResults(c, start, events[..|events| - 1]); }
  }

  /** What the results of the last requests say: whether there are enough, and how many of them failed. */
  datatype Findings = Findings(window: seq<Outcome>, enough: bool, rate: real)

  function FindingsOf(c: Config, m: Manager): Findings {
    var window := Last(m.history, c.slidingWindowSize);
    Findings(window, |window| >= c.minimumRequestCount, Rate(Failures, window))
  }

  /**
   * From NORMAL an evaluation goes to FALLBACK on a high error rate, from there to TRANSITION on a low one, and when the
   * transition period is over to NORMAL or back to FALLBACK by the rate.
   */
  lemma ModeAfter(c: Config, r: Run, now: int)
    ensures var mode, mode' := r.manager.mode, Apply(c, r, Tick(now)).manager.mode;
      var f, over := FindingsOf(c, r.manager), now >= r.manager.lastModeChange + c.transitionDuration;
      && (mode.Normal? ==> !mode'.Transition? && (mode'.Fallback? <==> f.enough && f.rate >= c.errorRateThreshold))
      && (mode.Fallback? ==> !mode'.Normal? && (mode'.Transition? <==> f.enough && f.rate <= c.recoveryThreshold))
      && (mode.Transition? ==> (mode'.Normal? <==> f.enough && over && f.rate <= c.recoveryThreshold))
      && (mode.Transition? ==> (mode'.Fallback? <==> f.enough && over && f.rate > c.recoveryThreshold))
      && Apply(c, r, Tick(now)).manager.history == r.manager.history
      && Apply(c, r, Tick(now)).manager.lastModeChange == (if mode' == mode then r.manager.lastModeChange else now)
  {
    hide Rate, Last;
  }

  lemma FollowIff(c: Config, r: Run, now: int, mode: Mode)
    requires ChangesOk(c, r)
    ensures var r' := Apply(c, r, Tick(now));
      MayFollow(c, r.changes[|r.changes| - 1], Change(mode, now, FindingsOf(c, r.manager).window)) <==>
      mode == r'.manager.mode != r.manager.mode
  {
    ModeAfter(c, r, now);
    hide Rate, Last, Apply;
  }

  /**
   * In every run an evaluation changes the mode whenever some change may follow the last one on the last results, and
   * then it makes exactly that change.
   */
  lemma ChangesIff(c: Config, start: int, events: seq<Event>, now: int, mode: Mode)
    ensures var r, r' := Exec(c, start, events), Exec(c, start, events + [Tick(now)]);
      var change := Change(mode, now, FindingsOf(c, r.manager).window);
      && r.changes != []
      && (MayFollow(c, r.changes[|r.changes| - 1], change) <==> mode == r'.manager.mode != r.manager.mode)
      && r'.changes == if r'.manager.mode == r.manager.mode then r.changes
           else r.changes + [Change(r'.manager.mode, now, FindingsOf(c, r.manager).window)]
  {
    Reachable(c, start, events);
    assert (events + [Tick(now)])[..|events|] == events;
    FollowIff(c, Exec(c, start, events), now, mode);
    hide MayFollow, Rate, Last;
  }

  // ---------- The manager itself ----------

  class FallbackManager {
    const config: Config
    const window: RequestWindow
    var currentMode: Mode
    var lastModeChange: int

    ghost predicate Valid()
      reads this, window, window.cells
    {
      window.Valid() && window.cells.Length == config.slidingWindowSize
    }

    ghost function Value(): Manager
      reads this, window
    {
      Manager(currentMode, lastModeChange, window.history)
    }

    constructor (config: Config, now: int)
      requires config.slidingWindowSize > 0
      ensures Valid() && fresh(window) && fresh(window.cells)
      ensures this.config == config && Value() == Manager(Normal, now, [])
    {
      hide Holds, Last;
      this.config := config;
      window := new RequestWindow(config.slidingWindowSize);
      currentMode, lastModeChange := Normal, now;
    }

    method RecordResult(o: Outcome)
      requires Valid()
      modifies window, window.cells
      ensures Valid() && window.cells == old(window.cells)
      ensures Value() == old(Value()).(history := old(window.history) + [o])
    {
      window.Add(o);
    }

    method ChangeMode(newMode: Mode, now: int)
      modifies this
      ensures Value() == TransitionTo(old(Value()), newMode, now)
    {
      if currentMode == newMode { return; }
      currentMode, lastModeChange := newMode, now;
    }

    method EvaluateMode(now: int)
      requires Valid()
      modifies this
      ensures Valid() && Value() == Evaluate(config, old(Value()), now)
    {
      hide Rate, Last, Holds, Count;
      var errorRate := window.CalculateRate(Failures);
      var windowSize := window.EffectiveSize();
      if windowSize < config.minimumRequestCount { return; }
      match currentMode {
        case Normal =>
          if errorRate >= config.errorRateThreshold { ChangeMode(Fallback, now); }
        case Fallback =>
          if errorRate <= config.recoveryThreshold { ChangeMode(Transition, now); }
        case Transition =>
          if now - lastModeChange >= config.transitionDuration {
            if errorRate <= config.recoveryThreshold { ChangeMode(Normal, now); } else { ChangeMode(Fallback, now); }
          }
      }
    }

    method ResetManager(now: int)
      requires Valid()
      modifies this, window
      ensures Valid() && fresh(window.cells) && Value() == NewRun(now).manager
    {
      hide Holds, Last;
      currentMode, lastModeChange := Normal, now;
      window.Clear();
    }
  }
}
