/**
 * The advanced circuit breaker. Its lock regions and the decrement of `activeRequests`, which is made outside the lock,
 * are the steps of a run; a request that was admitted in one state may come back in any other.
 *
 * `beforeRequest` reads `activeRequests` twice while other goroutines may decrement it. Because only `beforeRequest`
 * increments it, under the lock, the two reads decide as one read at the time of the later one would.
 */
module AdvancedBreaker {
  import opened SlidingWindow
  import opened GoInt

  datatype Option<T> = None | Some(value: T)

  datatype State = Closed | Open | HalfOpen

  /** `failureThreshold`, `minimumRequestCount` and `maxConcurrentRequests` are unsigned 64-bit numbers. */
  datatype Config = Config(
    failureThreshold: nat,
    failureRateThreshold: real,
    slowCallRateThreshold: real,
    minimumRequestCount: nat,
    openTimeout: int,
    maxConcurrentRequests: nat,
    slidingWindowSize: nat)

  /** The limits as the code compares them, after a conversion to a signed number. */
  function Minimum(c: Config): int {
    Wrap(c.minimumRequestCount)
  }

  function ConcurrencyLimit(c: Config): int {
    Wrap(c.maxConcurrentRequests)
  }

  /** `history` is every result since the breaker was made or reset; the array holds the end of it. */
  datatype Breaker = Breaker(state: State, expiry: Option<int>, consecutiveFailures: nat, history: seq<Outcome>)

  function Window(c: Config, b: Breaker): seq<Outcome> {
    Last(b.history, c.slidingWindowSize)
  }

  predicate ShouldTrip(c: Config, consecutiveFailures: nat, window: seq<Outcome>) {
    && |window| >= Minimum(c)
    && (|| consecutiveFailures >= c.failureThreshold
        || Rate(Failures, window) >= c.failureRateThreshold
        || Rate(SlowCalls, window) >= c.slowCallRateThreshold)
  }

  function TransitionTo(c: Config, b: Breaker, state: State, now: int): Breaker {
    if b.state == state then b else
    match state
    case Open => b.(state := Open, expiry := Some(now + c.openTimeout))
    case HalfOpen => b.(state := HalfOpen, expiry := None)
    case Closed => b.(state := Closed, expiry := None, consecutiveFailures := 0)
  }

  /** The zero time is before every other time. */
  function UpdateState(c: Config, b: Breaker, now: int): Breaker {
    if b.state.Open? && (b.expiry.None? || now > b.expiry.value) then TransitionTo(c, b, HalfOpen, now) else b
  }

  datatype Admission = Admitted | CircuitOpen | TooManyRequests

  function Admit(c: Config, b: Breaker, active: int): Admission {
    if b.state.Open? then CircuitOpen
    else if active >= ConcurrencyLimit(c) then TooManyRequests
    else if b.state.HalfOpen? && active > 0 then TooManyRequests
    else Admitted
  }

  function Evaluate(c: Config, b: Breaker, success: bool, now: int): Breaker {
    match b.state
    case Closed => if ShouldTrip(c, b.consecutiveFailures, Window(c, b)) then TransitionTo(c, b, Open, now) else b
    case HalfOpen => TransitionTo(c, b, if success then Closed else Open, now)
    case Open => b
  }

  function Record(b: Breaker, o: Outcome): Breaker {
    b.(consecutiveFailures := if o.success then 0 else b.consecutiveFailures + 1, history := b.history + [o])
  }

  function AfterRequest(c: Config, b: Breaker, o: Outcome, now: int): Breaker {
    Evaluate(c, Record(b, o), o.success, now)
  }

  const RESET := Breaker(Closed, None, 0, [])

  // ---------- Runs of concurrent requests ----------

  datatype Phase = Running | Reported | Released

  /** `episode` is the number of the stay in HALF_OPEN in which the request was admitted, if it was in one. */
  datatype Call = Call(phase: Phase, episode: Option<nat>)

  /**
   * `episodes` counts the stays in HALF_OPEN; `since` is every result since the breaker was last closed, by a result or
   * by Reset.
   */
  datatype System = System(breaker: Breaker, active: int, episodes: nat, calls: seq<Call>, since: seq<Outcome>)

  datatype Step =
    | Begin(now: int)
    | Report(call: nat, outcome: Outcome, now: int)
    | Release(call: nat)
    | Look(now: int)
    | Reset

  function SetBreaker(s: System, b: Breaker): System {
    s.(breaker := b, episodes := if b.state.HalfOpen? && !s.breaker.state.HalfOpen? then s.episodes + 1 else s.episodes)
  }

  /** A request is let in. */
  function Enter(s: System): System {
    var episode := if s.breaker.state.HalfOpen? then Some(s.episodes) else None;
    s.(active := s.active + 1, calls := s.calls + [Call(Running, episode)])
  }

  /** One step of a run; a step that cannot happen changes nothing. */
  function Apply(c: Config, s: System, step: Step): System {
    match step
    case Look(now) => SetBreaker(s, UpdateState(c, s.breaker, now))
    case Begin(now) =>
      var t := SetBreaker(s, UpdateState(c, s.breaker, now));
      if Admit(c, t.breaker, t.active).Admitted? then Enter(t) else t
    case Report(i, o, now) =>
      if i < |s.calls| && s.calls[i].phase.Running? then
        var b := AfterRequest(c, s.breaker, o, now);
        SetBreaker(s, b).(
          calls := s.calls[i := s.calls[i].(phase := Reported)],
          since := if b.state.Closed? && !s.breaker.state.Closed? then [] else s.since + [o])
      else s
    case Release(i) =>
      if i < |s.calls| && s.calls[i].phase.Reported? then
        s.(active := s.active - 1, calls := s.calls[i := s.calls[i].(phase := Released)])
      else s
    case Reset => SetBreaker(s, RESET).(since := [])
  }

  function Exec(c: Config, steps: seq<Step>): System {
    if steps == [] then System(RESET, 0, 0, [], []) else Apply(c, Exec(c, steps[..|steps| - 1]), steps[|steps| - 1])
  }

  /** How many requests were admitted and have not released their place. */
  function Inside(calls: seq<Call>): nat {
    if calls == [] then 0 else Inside(calls[..|calls| - 1]) + if calls[|calls| - 1].phase.Released? then 0 else 1
  }

  lemma {:induction false} InsideUpdate(calls: seq<Call>, i: nat, call: Call)
    requires i < |calls|
    ensures Inside(calls[i := call]) + (if calls[i].phase.Released? then 0 else 1) ==
            Inside(calls) + if call.phase.Released? then 0 else 1
  {
    var n := |calls| - 1;
    if i < n {
      assert calls[i := call][..n] == calls[..n][i := call];
      InsideUpdate(calls[..n], i, call);
    } else {
      assert calls[i := call][..n] == calls[..n];
    }
  }

  lemma {:induction false} InsideNone(calls: seq<Call>)
    requires Inside(calls) == 0
    ensures forall i :: 0 <= i < |calls| ==> calls[i].phase.Released?
  {
    if calls != [] { InsideNone(calls[..|calls| - 1]); }
  }

  ghost predicate ActiveOk(c: Config, s: System) {
    s.active == Inside(s.calls) && (s.active == 0 || s.active <= ConcurrencyLimit(c))
  }

  ghost predicate EpisodeOk(s: System, i: nat)
    requires i < |s.calls|
  {
    s.calls[i].episode.Some? ==>
      && s.calls[i].episode.value <= s.episodes
      && (s.calls[i].episode.value == s.episodes && s.breaker.state.HalfOpen? ==> s.calls[i].phase.Running?)
  }

  ghost predicate EpisodesOk(s: System) {
    && (forall i :: 0 <= i < |s.calls| ==> EpisodeOk(s, i))
    && forall i :: 0 <= i < |s.calls| ==> IsNewEpisode(s.calls, i)
  }

  /** No earlier request was admitted in the same stay in HALF_OPEN. */
  ghost predicate IsNewEpisode(calls: seq<Call>, i: nat)
    requires i < |calls|
  {
    calls[i].episode.Some? ==> forall j :: 0 <= j < i ==> calls[j].episode != calls[i].episode
  }

  ghost predicate Inv(c: Config, s: System) {
    && ActiveOk(c, s) && EpisodesOk(s)
    && (s.breaker.state.Open? <==> s.breaker.expiry.Some?)
  }

  lemma LookOk(c: Config, s: System, now: int)
    requires Inv(c, s)
    ensures Inv(c, Apply(c, s, Look(now)))
  {
    var s' := Apply(c, s, Look(now));
    forall i | 0 <= i < |s'.calls| ensures EpisodeOk(s', i) && IsNewEpisode(s'.calls, i) {
      assert EpisodeOk(s, i) && IsNewEpisode(s.calls, i);
    }
  }

  lemma EnterOk(c: Config, s: System)
    requires Inv(c, s) && Admit(c, s.breaker, s.active).Admitted?
    ensures Inv(c, Enter(s))
  {
    hide Inside;
    var s' := Enter(s);
    assert ActiveOk(c, s') by { assert s'.calls[..|s.calls|] == s.calls; EnterInside(s.calls, s'.calls[|s.calls|]); }
    if s.breaker.state.HalfOpen? { InsideNone(s.calls); }
    forall i | 0 <= i < |s.calls|
      ensures EpisodeOk(s', i) && IsNewEpisode(s'.calls, i)
      ensures s.breaker.state.HalfOpen? ==> s.calls[i].episode != Some(s.episodes)
    {
      assert EpisodeOk(s, i) && IsNewEpisode(s.calls, i);
    }
  }

  lemma EnterInside(calls: seq<Call>, call: Call)
    ensures Inside(calls + [call]) == Inside(calls) + if call.phase.Released? then 0 else 1
  {
    assert (calls + [call])[..|calls|] == calls;
  }

  lemma BeginOk(c: Config, s: System, now: int)
    requires Inv(c, s)
    ensures Inv(c, Apply(c, s, Begin(now)))
  {
    hide Inv, Admit;
    var t := Apply(c, s, Look(now));
    LookOk(c, s, now);
    if Admit(c, t.breaker, t.active).Admitted? { EnterOk(c, t); }
  }

  lemma ReportOk(c: Config, s: System, i: nat, o: Outcome, now: int)
    requires Inv(c, s) && i < |s.calls| && s.calls[i].phase.Running?
    ensures Inv(c, Apply(c, s, Report(i, o, now)))
  {
    var s' := Apply(c, s, Report(i, o, now));
    InsideUpdate(s.calls, i, s.calls[i].(phase := Reported));
    hide Inside, ShouldTrip;
    forall j | 0 <= j < |s'.calls| ensures EpisodeOk(s', j) && IsNewEpisode(s'.calls, j) {
      assert EpisodeOk(s, j) && IsNewEpisode(s.calls, j);
    }
  }

  lemma ReleaseOk(c: Config, s: System, i: nat)
    requires Inv(c, s) && i < |s.calls| && s.calls[i].phase.Reported?
    ensures Inv(c, Apply(c, s, Release(i)))
  {
    var s' := Apply(c, s, Release(i));
    InsideUpdate(s.calls, i, s.calls[i].(phase := Released));
    hide Inside;
    forall j | 0 <= j < |s'.calls| ensures EpisodeOk(s', j) && IsNewEpisode(s'.calls, j) {
      assert EpisodeOk(s, j) && IsNewEpisode(s.calls, j);
    }
  }

  lemma ResetOk(c: Config, s: System)
    requires Inv(c, s)
    ensures Inv(c, Apply(c, s, Reset))
  {
    var s' := Apply(c, s, Reset);
    forall j | 0 <= j < |s'.calls| ensures EpisodeOk(s', j) && IsNewEpisode(s'.calls, j) {
      assert EpisodeOk(s, j) && IsNewEpisode(s.calls, j);
    }
  }

  lemma StepOk(c: Config, s: System, step: Step)
    requires Inv(c, s)
    ensures Inv(c, Apply(c, s, step))
  {
    match step {
      case Look(now) => LookOk(c, s, now);
      case Begin(now) => BeginOk(c, s, now);
      case Report(i, o, now) => if i < |s.calls| && s.calls[i].phase.Running? { ReportOk(c, s, i, o, now); }
      case Release(i) => if i < |s.calls| && s.calls[i].phase.Reported? { ReleaseOk(c, s, i); }
      case Reset => ResetOk(c, s);
    }
  }

  lemma {:induction false} Reachable(c: Config, steps: seq<Step>)
    ensures Inv(c, Exec(c, steps))
  {
    if steps != [] {
      Reachable(c, steps[..|steps| - 1]);
      StepOk(c, Exec(c, steps[..|steps| - 1]), steps[|steps| - 1]);
    }
  }

  /** At most one request is admitted between entering and leaving HALF_OPEN, whatever earlier requests still do. */
  lemma OneProbePerEpisode(c: Config, steps: seq<Step>, i: nat, j: nat)
    requires var calls := Exec(c, steps).calls;
      i < |calls| && j < |calls| && calls[i].episode.Some? && calls[i].episode == calls[j].episode
    ensures i == j
  {
    hide Exec;
    Reachable(c, steps);
    assert IsNewEpisode(Exec(c, steps).calls, i) && IsNewEpisode(Exec(c, steps).calls, j);
  }

  /** While the breaker stays in HALF_OPEN, the probe it admitted has not come back: nothing else can be admitted. */
  lemma ProbeIsOut(c: Config, steps: seq<Step>, i: nat)
    requires var s := Exec(c, steps);
      s.breaker.state.HalfOpen? && i < |s.calls| && s.calls[i].episode == Some(s.episodes)
    ensures var s := Exec(c, steps);
      s.calls[i].phase.Running? && s.active > 0 && !Admit(c, s.breaker, s.active).Admitted?
  {
    hide Exec;
    var s := Exec(c, steps);
    Reachable(c, steps);
    assert EpisodeOk(s, i);
    if Inside(s.calls) == 0 { InsideNone(s.calls); }
  }

  /** `activeRequests` is the number of admitted requests that have not released their place, and never too large. */
  lemma ActiveIsBounded(c: Config, steps: seq<Step>)
    ensures var s := Exec(c, steps);
      && s.active == Inside(s.calls) <= c.maxConcurrentRequests
      && (s.active == 0 || s.active <= ConcurrencyLimit(c))
  {
    hide Exec;
    Reachable(c, steps);
  }

  /** One step with a limit that the conversion makes negative, or with the limit zero. */
  lemma NothingEnters(c: Config, s: System, step: Step)
    requires ConcurrencyLimit(c) <= 0 && s.calls == [] && s.active == 0
    ensures Apply(c, s, step).calls == [] && Apply(c, s, step).active == 0
  {
    hide ConcurrencyLimit, ShouldTrip;
  }

  lemma {:induction false} NothingEverEnters(c: Config, steps: seq<Step>)
    requires ConcurrencyLimit(c) <= 0
    ensures Exec(c, steps).calls == [] && Exec(c, steps).active == 0
  {
    hide ConcurrencyLimit;
    if steps != [] {
      NothingEverEnters(c, steps[..|steps| - 1]);
      NothingEnters(c, Exec(c, steps[..|steps| - 1]), steps[|steps| - 1]);
    }
  }

  /** A breaker lets anything in at all if and only if its limit is positive and survives the conversion to an int64. */
  lemma AdmitsIff(c: Config)
    requires IsUint64(c.maxConcurrentRequests)
    ensures (exists steps :: Exec(c, steps).calls != []) <==> 0 < c.maxConcurrentRequests <= INT64_MAX
  {
    ConversionIs(c.maxConcurrentRequests);
    hide Wrap;
    if ConcurrencyLimit(c) <= 0 {
      forall steps ensures Exec(c, steps).calls == [] { NothingEverEnters(c, steps); }
    } else {
      assert Exec(c, []) == System(RESET, 0, 0, [], []);
      ExecSnoc(c, [], Begin(0));
      hide Exec;
      assert Exec(c, [] + [Begin(0)]).calls != [];
    }
  }

  /** The largest limit, which is meant as no limit, refuses every request. */
  lemma NoLimitRefusesAll(c: Config, steps: seq<Step>)
    requires c.maxConcurrentRequests == TWO_TO_THE_64 - 1
    ensures Exec(c, steps).calls == []
  {
    hide Exec;
    ConversionIs(c.maxConcurrentRequests);
    NothingEverEnters(c, steps);
  }

  /** OPEN admits nothing, and stays as it is, up to its expiry; the first look after it ends OPEN. */
  lemma OpenUntilExpiry(c: Config, steps: seq<Step>, now: int)
    requires Exec(c, steps).breaker.state.Open?
    ensures var s := Exec(c, steps);
      && s.breaker.expiry.Some?
      && (now <= s.breaker.expiry.value <==> Apply(c, s, Begin(now)).breaker.state.Open?)
      && (now <= s.breaker.expiry.value ==> Apply(c, s, Begin(now)) == s)
  {
    hide Exec;
    Reachable(c, steps);
  }

  /**
   * A request is admitted if and only if the breaker is not OPEN when it looks, fewer requests than the limit are inside,
   * and in HALF_OPEN none at all is: then it is the probe of that stay.
   */
  lemma AdmittedIff(c: Config, steps: seq<Step>, now: int)
    requires IsUint64(c.maxConcurrentRequests)
    ensures var t, s' := Exec(c, steps + [Look(now)]), Exec(c, steps + [Begin(now)]);
      var admitted := && !t.breaker.state.Open? && c.maxConcurrentRequests <= INT64_MAX
                      && Inside(t.calls) < c.maxConcurrentRequests && (t.breaker.state.HalfOpen? ==> Inside(t.calls) == 0);
      && s'.breaker == t.breaker && s'.episodes == t.episodes && s'.since == t.since
      && (admitted ==> s'.calls == t.calls + [Call(Running, if t.breaker.state.HalfOpen? then Some(t.episodes) else None)])
      && (!admitted ==> s'.calls == t.calls)
  {
    ConversionIs(c.maxConcurrentRequests);
    ExecSnoc(c, steps, Look(now));
    ExecSnoc(c, steps, Begin(now));
    Reachable(c, steps + [Look(now)]);
    hide Exec, Inside, Wrap;
  }

  /** The first request after the expiry that finds nothing inside is the probe of a new stay in HALF_OPEN. */
  lemma ProbeIsAdmitted(c: Config, steps: seq<Step>, now: int)
    requires 0 < c.maxConcurrentRequests <= INT64_MAX
    requires var s := Exec(c, steps);
      s.breaker.state.Open? && s.breaker.expiry.Some? && now > s.breaker.expiry.value && Inside(s.calls) == 0
    ensures var s, s' := Exec(c, steps), Exec(c, steps + [Begin(now)]);
      && s'.breaker.state.HalfOpen? && s'.episodes == s.episodes + 1
      && s'.calls == s.calls + [Call(Running, Some(s'.episodes))]
  {
    ExecSnoc(c, steps, Look(now));
    AdmittedIff(c, steps, now);
    hide Exec, Inside;
  }

  /** An expiry is set in OPEN and nowhere else, and a new stay in HALF_OPEN is counted when it begins. */
  lemma ExpiryAndEpisodes(c: Config, steps: seq<Step>, step: Step)
    ensures var s, s' := Exec(c, steps), Exec(c, steps + [step]);
      && (s'.breaker.state.Open? <==> s'.breaker.expiry.Some?)
      && s'.episodes == s.episodes + (if s'.breaker.state.HalfOpen? && !s.breaker.state.HalfOpen? then 1 else 0)
  {
    ExecSnoc(c, steps, step);
    Reachable(c, steps + [step]);
    hide Exec, ShouldTrip;
  }

  // ---------- What the window means for tripping ----------

  /** Every stay in OPEN begins with the timeout, from a result and from nothing else. */
  lemma OnlyResultsOpen(c: Config, s: System, step: Step)
    requires !s.breaker.state.Open? && Apply(c, s, step).breaker.state.Open?
    ensures step.Report? && Apply(c, s, step).breaker.expiry == Some(step.now + c.openTimeout)
    ensures s.breaker.state.HalfOpen? ==> !step.outcome.success
    ensures s.breaker.state.Closed? ==>
      ShouldTrip(c, Record(s.breaker, step.outcome).consecutiveFailures,
                 Last(s.breaker.history + [step.outcome], c.slidingWindowSize))
  {
  }

  /** Every return to CLOSED is a Reset or a success in HALF_OPEN. */
  lemma OnlySuccessCloses(c: Config, s: System, step: Step)
    requires !s.breaker.state.Closed? && Apply(c, s, step).breaker.state.Closed?
    ensures step.Reset? || (step.Report? && s.breaker.state.HalfOpen? && step.outcome.success)
  {
  }

  /** The length of the run of failures at the end. */
  function Trailing(results: seq<Outcome>): nat {
    if results == [] || results[|results| - 1].success then 0 else Trailing(results[..|results| - 1]) + 1
  }

  lemma TrailingStep(c: Config, s: System, step: Step)
    requires s.breaker.consecutiveFailures == Trailing(s.since)
    ensures Apply(c, s, step).breaker.consecutiveFailures == Trailing(Apply(c, s, step).since)
  {
    if step.Report? {
      assert (s.since + [step.outcome])[..|s.since|] == s.since;
    }
    hide ShouldTrip;
  }

  /** The counter of consecutive failures is the run of failures since the breaker was last closed. */
  lemma {:induction false} ConsecutiveIsTrailing(c: Config, steps: seq<Step>)
    ensures Exec(c, steps).breaker.consecutiveFailures == Trailing(Exec(c, steps).since)
  {
    if steps != [] {
      ConsecutiveIsTrailing(c, steps[..|steps| - 1]);
      TrailingStep(c, Exec(c, steps[..|steps| - 1]), steps[|steps| - 1]);
    }
  }

  /**
   * In every run, a result opens a closed breaker if and only if enough results are in the window and the last failures
   * in a row, the failure rate or the rate of slow calls reaches its threshold, all computed from the plain results.
   */
  lemma TripsIff(c: Config, steps: seq<Step>, i: nat, o: Outcome, now: int)
    requires var s := Exec(c, steps); s.breaker.state.Closed? && i < |s.calls| && s.calls[i].phase.Running?
    ensures var s := Exec(c, steps);
      var window := Last(s.breaker.history + [o], c.slidingWindowSize);
      Apply(c, s, Report(i, o, now)).breaker.state.Open? <==>
        && |window| >= Minimum(c)
        && (|| Trailing(s.since + [o]) >= c.failureThreshold
            || Rate(Failures, window) >= c.failureRateThreshold || Rate(SlowCalls, window) >= c.slowCallRateThreshold)
  {
    hide Exec;
    var s := Exec(c, steps);
    ConsecutiveIsTrailing(c, steps);
    assert (s.since + [o])[..|s.since|] == s.since;
  }

  /** After the run the result of a running request opens the breaker, which was closed. */
  ghost predicate TripsAt(c: Config, steps: seq<Step>, i: nat, o: Outcome, now: int) {
    var s := Exec(c, steps);
    && s.breaker.state.Closed? && i < |s.calls| && s.calls[i].phase.Running?
    && Apply(c, s, Report(i, o, now)).breaker.state.Open?
  }

  ghost predicate CanTrip(c: Config) {
    exists steps, i: nat, o, now :: TripsAt(c, steps, i, o, now)
  }

  /** The breaker is closed with no request inside, and all n results so far were failures. */
  ghost predicate AllFailed(s: System, n: nat) {
    && s.breaker.state.Closed? && s.active == 0
    && |s.breaker.history| == n && s.breaker.consecutiveFailures == n
  }

  const FAILED := Outcome(false, false)

  lemma ExecSnoc(c: Config, steps: seq<Step>, step: Step)
    ensures Exec(c, steps + [step]) == Apply(c, Exec(c, steps), step)
  {
    assert (steps + [step])[..|steps|] == steps;
  }

  /** One more failing request: the run up to it, after which its result arrives, and the run with it. */
  lemma FailOnce(c: Config, steps: seq<Step>, n: nat)
    requires ConcurrencyLimit(c) > 0 && AllFailed(Exec(c, steps), n)
    ensures var i := |Exec(c, steps).calls|;
      var s := Exec(c, steps + [Begin(0)]);
      && s.breaker == Exec(c, steps).breaker && i < |s.calls| && s.calls[i].phase.Running?
      && (TripsAt(c, steps + [Begin(0)], i, FAILED, 0) ||
          AllFailed(Exec(c, steps + [Begin(0)] + [Report(i, FAILED, 0)] + [Release(i)]), n + 1))
  {
    var i := |Exec(c, steps).calls|;
    var begun := steps + [Begin(0)];
    var reported := begun + [Report(i, FAILED, 0)];
    ExecSnoc(c, steps, Begin(0));
    ExecSnoc(c, begun, Report(i, FAILED, 0));
    ExecSnoc(c, reported, Release(i));
    hide Exec, ShouldTrip;
  }

  /** Failing requests one after the other, as many as one likes, unless one of them opens the breaker before. */
  lemma {:induction false} FailOften(c: Config, n: nat) returns (steps: seq<Step>)
    requires ConcurrencyLimit(c) > 0
    ensures CanTrip(c) || AllFailed(Exec(c, steps), n)
  {
    steps := [];
    if n > 0 {
      steps := FailOften(c, n - 1);
      if !CanTrip(c) {
        FailOnce(c, steps, n - 1);
        var i := |Exec(c, steps).calls|;
        steps := steps + [Begin(0)] + [Report(i, FAILED, 0)] + [Release(i)];
      }
    }
  }

  lemma EnoughFailuresTrip(c: Config, steps: seq<Step>, n: nat)
    requires ConcurrencyLimit(c) > 0 && AllFailed(Exec(c, steps), n)
    requires Minimum(c) <= n && c.failureThreshold <= n && Minimum(c) <= c.slidingWindowSize
    ensures TripsAt(c, steps + [Begin(0)], |Exec(c, steps).calls|, FAILED, 0)
  {
    FailOnce(c, steps, n);
    hide Exec;
  }

  lemma TripsInSomeRun(c: Config, n: nat)
    requires ConcurrencyLimit(c) > 0 && Minimum(c) <= c.slidingWindowSize && Minimum(c) <= n && c.failureThreshold <= n
    ensures CanTrip(c)
  {
    hide Minimum, ConcurrencyLimit;
    var steps := FailOften(c, n);
    if AllFailed(Exec(c, steps), n) {
      EnoughFailuresTrip(c, steps, n);
    }
  }

  /**
   * Some run of requests opens the breaker if and only if it admits requests at all and its window is as large as the
   * minimum of results, or that minimum is so large that the conversion makes it negative.
   */
  lemma CanTripIff(c: Config)
    requires IsUint64(c.maxConcurrentRequests) && IsUint64(c.minimumRequestCount)
    ensures CanTrip(c) <==>
      && 0 < c.maxConcurrentRequests <= INT64_MAX
      && (c.minimumRequestCount <= c.slidingWindowSize || c.minimumRequestCount > INT64_MAX)
  {
    ConversionIs(c.maxConcurrentRequests);
    ConversionIs(c.minimumRequestCount);
    hide Wrap;
    if CanTrip(c) {
      var steps, i: nat, o, now :| TripsAt(c, steps, i, o, now);
      TripsIff(c, steps, i, o, now);
      ActiveIsBounded(c, steps);
      if Inside(Exec(c, steps).calls) == 0 { InsideNone(Exec(c, steps).calls); }
    }
    if ConcurrencyLimit(c) > 0 && Minimum(c) <= c.slidingWindowSize {
      TripsInSomeRun(c, c.minimumRequestCount + c.failureThreshold);
    }
  }

  /** The largest minimum, with which no window is large enough, lets the very first failure open the breaker. */
  lemma LargestMinimumTripsAtOnce(c: Config, now: int)
    requires c.minimumRequestCount == TWO_TO_THE_64 - 1 && c.failureThreshold <= 1
    ensures AfterRequest(c, RESET, FAILED, now).state.Open?
  {
    ConversionIs(c.minimumRequestCount);
  }

  /**
   * The window outlives a change of state. So after a successful probe has closed the breaker, the next success can open
   * it again.
   */
  lemma SuccessCanTrip()
    ensures var c := Config(3, 0.5, 0.5, 2, 30, 100, 10);
      var bad, good := Outcome(false, false), Outcome(true, false);
      var open := AfterRequest(c, AfterRequest(c, RESET, bad, 0), bad, 1);
      var closed := AfterRequest(c, UpdateState(c, open, 40), good, 41);
      open.state.Open? && closed.state.Closed? && AfterRequest(c, closed, good, 42).state.Open?
  {
    hide ShouldTrip, Rate, Count;
    var c := Config(3, 0.5, 0.5, 2, 30, 100, 10);
    var bad, good := Outcome(false, false), Outcome(true, false);
    HalfAreBad(c, bad, good);
    assert RESET.history + [bad] == [bad] && [bad] + [bad] == [bad, bad];
    assert [bad, bad] + [good] == [bad, bad, good];
    assert [bad, bad, good] + [good] == [bad, bad, good, good];
    assert AfterRequest(c, RESET, bad, 0) == Breaker(Closed, None, 1, [bad]);
    assert AfterRequest(c, Breaker(Closed, None, 1, [bad]), bad, 1) == Breaker(Open, Some(31), 2, [bad, bad]);
    assert AfterRequest(c, Breaker(HalfOpen, None, 2, [bad, bad]), good, 41) == Breaker(Closed, None, 0, [bad, bad, good]);
  }

  lemma HalfAreBad(c: Config, bad: Outcome, good: Outcome)
    requires !bad.success && good.success
    requires c.failureRateThreshold == 0.5 && c.minimumRequestCount == 2
    ensures !ShouldTrip(c, 1, [bad]) && ShouldTrip(c, 2, [bad, bad]) && ShouldTrip(c, 0, [bad, bad, good, good])
  {
    assert [bad, bad][..1] == [bad] && [bad, bad, good, good][..3] == [bad, bad, good] && [bad, bad, good][..2] == [bad, bad];
    assert Count(Failures, [bad]) == 1;
    assert Count(Failures, [bad, bad]) == 2;
    assert Count(Failures, [bad, bad, good]) == 2;
    assert Count(Failures, [bad, bad, good, good]) == 2;
  }

  // ---------- The breaker itself ----------

  /** Each method changes the fields as the function of the same name changes the value with the plain history. */
  class AdvancedCircuitBreaker {
    const config: Config
    const window: RequestWindow
    var state: State
    var expiry: Option<int>
    var consecutiveFailures: nat
    var activeRequests: int

    ghost predicate Valid()
      reads this, window, window.cells
    {
      window.Valid() && window.cells.Length == config.slidingWindowSize
    }

    ghost function Value(): Breaker
      reads this, window
    {
      Breaker(state, expiry, consecutiveFailures, window.history)
    }

    constructor (config: Config)
      requires config.slidingWindowSize > 0
      ensures Valid() && fresh(window) && fresh(window.cells)
      ensures this.config == config && Value() == RESET && activeRequests == 0
    {
      hide Holds, Last;
      this.config := config;
      window := new RequestWindow(config.slidingWindowSize);
      state, expiry, consecutiveFailures, activeRequests := Closed, None, 0, 0;
    }

    method ChangeState(newState: State, now: int)
      requires Valid()
      modifies this`state, this`expiry, this`consecutiveFailures
      ensures Valid() && Value() == TransitionTo(config, old(Value()), newState, now)
    {
      if state == newState { return; }
      state := newState;
      match newState {
        case Open => expiry := Some(now + config.openTimeout);
        case HalfOpen => expiry := None;
        case Closed =>
          expiry := None;
          consecutiveFailures := 0;
      }
    }

    method Refresh(now: int)
      requires Valid()
      modifies this`state, this`expiry, this`consecutiveFailures
      ensures Valid() && Value() == UpdateState(config, old(Value()), now)
    {
      if state == Open && (expiry.None? || now > expiry.value) {
        ChangeState(HalfOpen, now);
      }
    }

    method Before(now: int) returns (a: Admission)
      requires Valid()
      modifies this
      ensures Valid() && Value() == UpdateState(config, old(Value()), now)
      ensures a == Admit(config, Value(), old(activeRequests))
      ensures activeRequests == old(activeRequests) + if a.Admitted? then 1 else 0
    {
      Refresh(now);
      if state == Open { return CircuitOpen; }
      if activeRequests >= ConcurrencyLimit(config) { return TooManyRequests; }
      if state == HalfOpen {
        if activeRequests > 0 { return TooManyRequests; }
      }
      activeRequests := activeRequests + 1;
      return Admitted;
    }

    method ShouldTripToOpen() returns (trip: bool)
      requires Valid()
      ensures trip <==> ShouldTrip(config, consecutiveFailures, Window(config, Value()))
    {
      var windowSize := window.EffectiveSize();
      if windowSize < Minimum(config) { return false; }
      if consecutiveFailures >= config.failureThreshold { return true; }
      var failureRate := window.CalculateRate(Failures);
      if failureRate >= config.failureRateThreshold { return true; }
      var slowCallRate := window.CalculateRate(SlowCalls);
      return slowCallRate >= config.slowCallRateThreshold;
    }

    method After(o: Outcome, now: int)
      requires Valid()
      modifies this, window, window.cells
      ensures Valid() && window.cells == old(window.cells)
      ensures Value() == AfterRequest(config, old(Value()), o, now)
      ensures activeRequests == old(activeRequests)
    {
      consecutiveFailures := if o.success then 0 else consecutiveFailures + 1;
      window.Add(o);
      assert Value() == Record(old(Value()), o);
      match state {
        case Closed =>
          var trip := ShouldTripToOpen();
          if trip { ChangeState(Open, now); }
        case HalfOpen => ChangeState(if o.success then Closed else Open, now);
        case Open =>
      }
    }

    method ResetBreaker()
      requires Valid()
      modifies this, window
      ensures Valid() && fresh(window.cells) && Value() == RESET && activeRequests == old(activeRequests)
    {
      hide Holds, Last;
      window.Clear();
      state, expiry, consecutiveFailures := Closed, None, 0;
    }
  }
}
