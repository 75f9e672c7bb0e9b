/**
 * The circuit breaker: CLOSED, OPEN and HALF_OPEN, with counts that belong to one generation. Every method runs under the
 * breaker's mutex, so a run is a sequence of method calls made by any number of callers; the request itself runs between
 * `beforeRequest` and `afterRequest`, outside the mutex.
 */
module CircuitBreaker {

  datatype Option<T> = None | Some(value: T)

  datatype State = Closed | HalfOpen | Open

  datatype Counts = Counts(
    requests: nat,
    totalSuccesses: nat,
    totalFailures: nat,
    consecutiveSuccesses: nat,
    consecutiveFailures: nat)

  const NO_COUNTS := Counts(0, 0, 0, 0, 0)

  /** The settings after NewCircuitBreaker has replaced what was left out by its defaults. */
  datatype Config = Config(maxRequests: nat, interval: int, timeout: int, readyToTrip: Counts -> bool)

  ghost predicate ConfigOk(c: Config) {
    c.maxRequests > 0 && c.interval > 0 && c.timeout > 0
  }

  const DEFAULT_PERIOD := 60

  /** NewCircuitBreaker always makes usable settings. */
  function NewConfig(maxRequests: nat, interval: int, timeout: int, readyToTrip: Counts -> bool): (c: Config)
    ensures ConfigOk(c)
    ensures (maxRequests > 0 ==> c.maxRequests == maxRequests) && (interval > 0 ==> c.interval == interval)
    ensures timeout > 0 ==> c.timeout == timeout
  {
    Config(
      if maxRequests == 0 then 1 else maxRequests,
      if interval <= 0 then DEFAULT_PERIOD else interval,
      if timeout <= 0 then DEFAULT_PERIOD else timeout,
      readyToTrip)
  }

  /** The fields of the breaker; no expiry stands for the zero time. */
  datatype Breaker = Breaker(state: State, generation: nat, counts: Counts, expiry: Option<int>)

  function NewGeneration(c: Config, b: Breaker, now: int): Breaker {
    b.(generation := b.generation + 1, counts := NO_COUNTS,
       expiry := match b.state
         case Closed => if c.interval == 0 then None else Some(now + c.interval)
         case Open => Some(now + c.timeout)
         case HalfOpen => None)
  }

  function SetState(c: Config, b: Breaker, state: State, now: int): Breaker {
    if b.state == state then b else NewGeneration(c, b.(state := state), now)
  }

  /** The zero time is before every other time. */
  predicate HasExpired(b: Breaker, now: int) {
    b.expiry.None? || b.expiry.value < now
  }

  function CurrentState(c: Config, b: Breaker, now: int): Breaker {
    match b.state
    case Closed => if b.expiry.Some? && HasExpired(b, now) then NewGeneration(c, b, now) else b
    case Open => if HasExpired(b, now) then SetState(c, b, HalfOpen, now) else b
    case HalfOpen => b
  }

  datatype Admission = Admitted(generation: nat) | BreakerOpen | TooManyRequests

  function Admit(c: Config, b: Breaker): Admission {
    if b.state.Open? then BreakerOpen
    else if b.state.HalfOpen? && b.counts.requests >= c.maxRequests then TooManyRequests
    else Admitted(b.generation)
  }

  function BeforeRequest(c: Config, b: Breaker, now: int): (Breaker, Admission) {
    var b' := CurrentState(c, b, now);
    var a := Admit(c, b');
    (if a.Admitted? then b'.(counts := b'.counts.(requests := b'.counts.requests + 1)) else b', a)
  }

  function CountResult(n: Counts, success: bool): Counts {
    if success then
      n.(totalSuccesses := n.totalSuccesses + 1, consecutiveSuccesses := n.consecutiveSuccesses + 1, consecutiveFailures := 0)
    else
      n.(totalFailures := n.totalFailures + 1, consecutiveFailures := n.consecutiveFailures + 1, consecutiveSuccesses := 0)
  }

  /** onSuccess and onFailure. */
  function OnResult(c: Config, b: Breaker, success: bool, now: int): Breaker {
    var b' := b.(counts := CountResult(b.counts, success));
    match b.state
    case HalfOpen => SetState(c, b', if success then Closed else Open, now)
    case Closed => if !success && c.readyToTrip(b'.counts) then SetState(c, b', Open, now) else b'
    case Open => b'
  }

  function AfterRequest(c: Config, b: Breaker, before: nat, success: bool, now: int): Breaker {
    var b' := CurrentState(c, b, now);
    if b'.generation != before then b' else OnResult(c, b', success, now)
  }

  function Reset(c: Config, b: Breaker, now: int): Breaker {
    NewGeneration(c, b, now).(state := Closed)
  }

  // ---------- Runs of concurrent callers ----------

  /**
   * The breaker with what has happened in its current generation: `results` are the results recorded in it. `inFlight`
   * holds, for every request that was admitted and has not come back, the generation that admitted it.
   */
  datatype System = System(breaker: Breaker, results: seq<bool>, inFlight: multiset<nat>)

  datatype Step =
    | Begin(now: int)
    | End(before: nat, success: bool, now: int)
    | ResetAt(now: int)
    | Look(now: int)

  /** When a step starts a new generation, the results recorded so far belong to an old one. */
  function Recorded(s: System, b: Breaker): seq<bool> {
    if b.generation == s.breaker.generation then s.results else []
  }

  function Apply(c: Config, s: System, step: Step): System {
    match step
    case Begin(now) =>
      var (b, a) := BeforeRequest(c, s.breaker, now);
      System(b, Recorded(s, b), if a.Admitted? then s.inFlight + multiset{a.generation} else s.inFlight)
    case End(before, success, now) =>
      if before !in s.inFlight then s else
      var b := AfterRequest(c, s.breaker, before, success, now);
      var counted := CurrentState(c, s.breaker, now).generation == before && b.generation == before;
      System(b, if counted then Recorded(s, b) + [success] else Recorded(s, b), s.inFlight - multiset{before})
    case ResetAt(now) => System(Reset(c, s.breaker, now), [], s.inFlight)
    case Look(now) => var b := CurrentState(c, s.breaker, now); System(b, Recorded(s, b), s.inFlight)
  }

  function Start(c: Config, now: int): System {
    System(NewGeneration(c, Breaker(Closed, 0, NO_COUNTS, None), now), [], multiset{})
  }

  function Exec(c: Config, start: int, steps: seq<Step>): System {
    if steps == [] then Start(c, start) else Apply(c, Exec(c, start, steps[..|steps| - 1]), steps[|steps| - 1])
  }

  // ---------- Counts are a summary ----------

  function Total(results: seq<bool>, success: bool): nat {
    if results == [] then 0 else Total(results[..|results| - 1], success) + if results[|results| - 1] == success then 1 else 0
  }

  /** The length of the run of equal results at the end. */
  function Trailing(results: seq<bool>, success: bool): nat {
    if results == [] || results[|results| - 1] != success then 0 else Trailing(results[..|results| - 1], success) + 1
  }

  function Summary(requests: nat, results: seq<bool>): Counts {
    Counts(requests, Total(results, true), Total(results, false), Trailing(results, true), Trailing(results, false))
  }

  lemma SummarySnoc(requests: nat, results: seq<bool>, success: bool)
    ensures Summary(requests, results + [success]) == CountResult(Summary(requests, results), success)
  {
    assert (results + [success])[..|results|] == results;
  }

  ghost predicate Inv(c: Config, s: System) {
    var b := s.breaker;
    && b.counts == Summary(|s.results| + s.inFlight[b.generation], s.results)
    && (forall g :: g in s.inFlight ==> g <= b.generation)
    && (b.state.HalfOpen? ==> s.results == [] && b.counts.requests <= c.maxRequests)
    && (b.state.Open? ==> b.counts == NO_COUNTS && s.results == [] && b.expiry.Some?)
  }

  lemma LookOk(c: Config, s: System, now: int)
    requires Inv(c, s)
    ensures Inv(c, Apply(c, s, Look(now)))
  {
    assert s.breaker.generation + 1 !in s.inFlight;
  }

  lemma BeginOk(c: Config, s: System, now: int)
    requires Inv(c, s)
    ensures Inv(c, Apply(c, s, Begin(now)))
  {
    LookOk(c, s, now);
    hide CurrentState;
  }

  /** Taking the result's request out of the count of those under way, before the result itself is counted. */
  lemma LandOk(c: Config, s: System, before: nat)
    requires Inv(c, s) && before in s.inFlight && before == s.breaker.generation
    ensures s.breaker.counts == Summary(|s.results| + 1 + (s.inFlight - multiset{before})[before], s.results)
  {
  }

  /** A result of the current generation. */
  lemma ResultOk(c: Config, s: System, success: bool, now: int)
    requires Inv(c, s) && s.breaker.generation in s.inFlight
    ensures var b := OnResult(c, s.breaker, success, now);
      var rest := s.inFlight - multiset{s.breaker.generation};
      Inv(c, System(b, if b.generation == s.breaker.generation then s.results + [success] else [], rest))
  {
    var b, g := OnResult(c, s.breaker, success, now), s.breaker.generation;
    var rest := s.inFlight - multiset{g};
    LandOk(c, s, g);
    hide Total, Trailing;
    if b.generation == g {
      SummarySnoc(|s.results| + 1 + rest[g], s.results, success);
    } else {
      assert b.generation !in rest;
    }
  }

  lemma EndIs(c: Config, s: System, before: nat, success: bool, now: int)
    requires before in s.inFlight
    ensures var t := Apply(c, s, Look(now));
      var b := OnResult(c, t.breaker, success, now);
      var rest := s.inFlight - multiset{before};
      Apply(c, s, End(before, success, now)) ==
        if t.breaker.generation != before then t.(inFlight := rest)
        else System(b, if b.generation == before then t.results + [success] else [], rest)
  {
    hide CurrentState;
    var b0 := CurrentState(c, s.breaker, now);
    var b := OnResult(c, b0, success, now);
    assert b.generation == b0.generation || b.generation == b0.generation + 1;
    LookGeneration(c, s.breaker, now);
    hide OnResult;
  }

  lemma LookGeneration(c: Config, b: Breaker, now: int)
    ensures b.generation <= CurrentState(c, b, now).generation
  {
  }

  lemma EndOk(c: Config, s: System, before: nat, success: bool, now: int)
    requires Inv(c, s) && before in s.inFlight
    ensures Inv(c, Apply(c, s, End(before, success, now)))
  {
    var t := Apply(c, s, Look(now));
    assert t.inFlight == s.inFlight;
    hide CurrentState, OnResult, Inv, Apply;
    LookOk(c, s, now);
    EndIs(c, s, before, success, now);
    if t.breaker.generation == before { ResultOk(c, t, success, now); }
  }

  lemma StepOk(c: Config, s: System, step: Step)
    requires Inv(c, s)
    ensures Inv(c, Apply(c, s, step))
  {
    match step {
      case End(before, success, now) => if before in s.inFlight { EndOk(c, s, before, success, now); }
      case Begin(now) => BeginOk(c, s, now);
      case Look(now) => LookOk(c, s, now);
      case ResetAt(now) => assert s.breaker.generation + 1 !in s.inFlight;
    }
  }

  lemma {:induction false} Reachable(c: Config, start: int, steps: seq<Step>)
    requires ConfigOk(c)
    ensures Inv(c, Exec(c, start, steps))
  {
    if steps != [] {
      Reachable(c, start, steps[..|steps| - 1]);
      StepOk(c, Exec(c, start, steps[..|steps| - 1]), steps[|steps| - 1]);
    }
  }

  /**
   * The counts are exactly the summary of the results recorded in the current generation, and of its requests those that
   * are still under way.
   */
  lemma CountsAreSummary(c: Config, start: int, steps: seq<Step>)
    requires ConfigOk(c)
    ensures var s := Exec(c, start, steps);
      s.breaker.counts == Summary(|s.results| + s.inFlight[s.breaker.generation], s.results)
  {
    hide Exec;
    Reachable(c, start, steps);
  }

  /** All requests admitted since HALF_OPEN began are still under way, and there are at most `maxRequests` of them. */
  lemma HalfOpenIsBounded(c: Config, start: int, steps: seq<Step>)
    requires ConfigOk(c) && Exec(c, start, steps).breaker.state.HalfOpen?
    ensures var s := Exec(c, start, steps);
      s.breaker.counts.requests == s.inFlight[s.breaker.generation] <= c.maxRequests
  {
    hide Exec;
    Reachable(c, start, steps);
  }

  lemma GenerationStep(c: Config, s: System, step: Step)
    ensures s.breaker.generation <= Apply(c, s, step).breaker.generation
  {
  }

  lemma {:induction false} GenerationGrows(c: Config, start: int, steps: seq<Step>, more: seq<Step>)
    ensures Exec(c, start, steps).breaker.generation <= Exec(c, start, steps + more).breaker.generation
  {
    if more == [] {
      assert steps + more == steps;
    } else {
      var n := |more| - 1;
      assert (steps + more)[..|steps + more| - 1] == steps + more[..n];
      GenerationGrows(c, start, steps, more[..n]);
      GenerationStep(c, Exec(c, start, steps + more[..n]), more[n]);
    }
  }

  /** A result that comes back in a later generation than its request changes no more than looking at the state does. */
  lemma StaleResultsAreIgnored(c: Config, s: System, before: nat, success: bool, now: int)
    requires Inv(c, s) && before in s.inFlight && before < s.breaker.generation
    ensures var s' := Apply(c, s, End(before, success, now));
      s'.breaker == CurrentState(c, s.breaker, now) && s'.results == Apply(c, s, Look(now)).results
  {
    GenerationStep(c, s, Look(now));
    hide OnResult;
  }

  /** OPEN admits nothing up to its expiry, and the first request after it as a probe. */
  lemma OpenUntilExpiry(c: Config, start: int, steps: seq<Step>, now: int)
    requires ConfigOk(c) && Exec(c, start, steps).breaker.state.Open?
    ensures var b := Exec(c, start, steps).breaker;
      var (b', a) := BeforeRequest(c, b, now);
      && b.expiry.Some?
      && (a.BreakerOpen? <==> now <= b.expiry.value)
      && (if a.BreakerOpen? then b' == b else a == Admitted(b.generation + 1) && b'.state.HalfOpen? && b'.counts.requests == 1)
  {
    hide Exec;
    Reachable(c, start, steps);
  }

  // ---------- Which state follows ----------

  lemma ExecSnoc(c: Config, start: int, steps: seq<Step>, step: Step)
    ensures Exec(c, start, steps + [step]) == Apply(c, Exec(c, start, steps), step)
  {
    assert (steps + [step])[..|steps|] == steps;
  }

  lemma LookFrom(c: Config, s: System, now: int)
    requires ConfigOk(c) && Inv(c, s)
    ensures var s' := Apply(c, s, Look(now));
      var over := s.breaker.expiry.Some? && now > s.breaker.expiry.value;
      && (s.breaker.state.HalfOpen? || !over ==> s' == s)
      && (!s.breaker.state.HalfOpen? && over ==>
            s' == System(
              if s.breaker.state.Open? then Breaker(HalfOpen, s.breaker.generation + 1, NO_COUNTS, None)
              else Breaker(Closed, s.breaker.generation + 1, NO_COUNTS, Some(now + c.interval)),
              [], s.inFlight))
  {
    hide Summary;
  }

  /**
   * A look at the breaker ends OPEN after its expiry, with HALF_OPEN and no results, and ends a generation of CLOSED after
   * its expiry, with a new one of the whole interval; otherwise it changes nothing.
   */
  lemma LookLeadsTo(c: Config, start: int, steps: seq<Step>, now: int)
    requires ConfigOk(c)
    ensures var s, s' := Exec(c, start, steps), Exec(c, start, steps + [Look(now)]);
      var over := s.breaker.expiry.Some? && now > s.breaker.expiry.value;
      && (s.breaker.state.HalfOpen? || !over ==> s' == s)
      && (!s.breaker.state.HalfOpen? && over ==>
            s' == System(
              if s.breaker.state.Open? then Breaker(HalfOpen, s.breaker.generation + 1, NO_COUNTS, None)
              else Breaker(Closed, s.breaker.generation + 1, NO_COUNTS, Some(now + c.interval)),
              [], s.inFlight))
  {
    hide Exec, Apply, Inv;
    ExecSnoc(c, start, steps, Look(now));
    Reachable(c, start, steps);
    LookFrom(c, Exec(c, start, steps), now);
  }

  /** The results of the generation with one more make `readyToTrip` open the breaker. */
  predicate Trips(c: Config, t: System, success: bool) {
    !success && c.readyToTrip(Summary(|t.results| + t.inFlight[t.breaker.generation], t.results + [success]))
  }

  lemma ResultFrom(c: Config, t: System, success: bool, now: int)
    requires ConfigOk(c) && Inv(c, t) && t.breaker.generation in t.inFlight
    ensures var b, g := OnResult(c, t.breaker, success, now), t.breaker.generation;
      && !t.breaker.state.Open?
      && (t.breaker.state.HalfOpen? && success ==> b == Breaker(Closed, g + 1, NO_COUNTS, Some(now + c.interval)))
      && (t.breaker.state.HalfOpen? && !success ==> b == Breaker(Open, g + 1, NO_COUNTS, Some(now + c.timeout)))
      && (t.breaker.state.Closed? && Trips(c, t, success) ==> b == Breaker(Open, g + 1, NO_COUNTS, Some(now + c.timeout)))
      && (t.breaker.state.Closed? && !Trips(c, t, success) ==>
            b == Breaker(Closed, g, Summary(|t.results| + t.inFlight[g], t.results + [success]), t.breaker.expiry))
  {
    var g := t.breaker.generation;
    SummarySnoc(|t.results| + t.inFlight[g], t.results, success);
    hide Total, Trailing;
  }

  /**
   * Where the result of a request of the current generation leads, in every run. In HALF_OPEN a success closes the
   * breaker and a failure opens it until the timeout is over. In CLOSED a failure opens it if and only if `readyToTrip`
   * holds of the summary of the generation's results with this one; any other result is added to them.
   */
  lemma ResultLeadsTo(c: Config, start: int, steps: seq<Step>, success: bool, now: int)
    requires ConfigOk(c)
    requires var t := Exec(c, start, steps + [Look(now)]); t.breaker.generation in t.inFlight
    ensures var t := Exec(c, start, steps + [Look(now)]);
      var g := t.breaker.generation;
      var s' := Exec(c, start, steps + [End(g, success, now)]);
      && !t.breaker.state.Open? && s'.inFlight == t.inFlight - multiset{g}
      && (t.breaker.state.HalfOpen? && success ==>
            s'.breaker == Breaker(Closed, g + 1, NO_COUNTS, Some(now + c.interval)) && s'.results == [])
      && ((t.breaker.state.HalfOpen? && !success) || (t.breaker.state.Closed? && Trips(c, t, success)) ==>
            s'.breaker == Breaker(Open, g + 1, NO_COUNTS, Some(now + c.timeout)) && s'.results == [])
      && (t.breaker.state.Closed? && !Trips(c, t, success) ==>
            && s'.breaker == Breaker(Closed, g, Summary(|t.results| + t.inFlight[g], t.results + [success]), t.breaker.expiry)
            && s'.results == t.results + [success])
  {
    hide Exec, Apply, Inv, Trips, Summary, OnResult;
    var s, t := Exec(c, start, steps), Exec(c, start, steps + [Look(now)]);
    var g := t.breaker.generation;
    ExecSnoc(c, start, steps, Look(now));
    ExecSnoc(c, start, steps, End(g, success, now));
    Reachable(c, start, steps + [Look(now)]);
    LookKeepsRequests(c, s, now);
    EndIs(c, s, g, success, now);
    ResultFrom(c, t, success, now);
  }

  lemma LookKeepsRequests(c: Config, s: System, now: int)
    ensures Apply(c, s, Look(now)).inFlight == s.inFlight
  {
  }

  /** What a request finds: CLOSED admits it, and HALF_OPEN if fewer than `maxRequests` of its requests are under way. */
  lemma AdmittedIff(c: Config, start: int, steps: seq<Step>, now: int)
    requires ConfigOk(c)
    ensures var t, s' := Exec(c, start, steps + [Look(now)]), Exec(c, start, steps + [Begin(now)]);
      var g := t.breaker.generation;
      && s'.breaker.generation == g && s'.breaker.state == t.breaker.state && s'.results == t.results
      && (if t.breaker.state.Closed? || (t.breaker.state.HalfOpen? && t.inFlight[g] < c.maxRequests)
          then s'.inFlight == t.inFlight + multiset{g} else s' == t)
  {
    ExecSnoc(c, start, steps, Look(now));
    ExecSnoc(c, start, steps, Begin(now));
    Reachable(c, start, steps + [Look(now)]);
    hide Exec, CurrentState, Total, Trailing;
  }

  // ---------- Reset ----------

  /** Whether a look at the breaker at that time ends its current generation. */
  predicate RollsOver(c: Config, b: Breaker, later: int) {
    CurrentState(c, b, later).generation != b.generation
  }

  /**
   * Reset takes the expiry from the state that it leaves: from OPEN the new window lasts as long as OPEN would have, and
   * from HALF_OPEN it never ends.
   */
  lemma ResetWindow(c: Config, b: Breaker, now: int, later: int)
    requires ConfigOk(c)
    ensures var r := Reset(c, b, now);
      && r.state.Closed? && r.counts == NO_COUNTS && r.generation == b.generation + 1
      && (RollsOver(c, r, later) <==>
        match b.state
        case Closed => later > now + c.interval
        case Open => later > now + c.timeout
        case HalfOpen => false)
  {
  }

  /** So the window after a Reset is that of any other CLOSED generation exactly in these cases. */
  lemma ResetWindowIsRegular(c: Config, b: Breaker, now: int)
    requires ConfigOk(c)
    ensures (forall later :: RollsOver(c, Reset(c, b, now), later) <==> later > now + c.interval) <==>
            b.state.Closed? || (b.state.Open? && c.timeout == c.interval)
  {
    var r := Reset(c, b, now);
    forall later ensures b.state.Closed? ==> (RollsOver(c, r, later) <==> later > now + c.interval) {
      ResetWindow(c, b, now, later);
    }
    ResetWindow(c, b, now, now + c.interval + 1);
    ResetWindow(c, b, now, now + c.timeout + 1);
  }

  // ---------- The default decision to trip ----------

  predicate DefaultReadyToTrip(minimum: nat, threshold: real, n: Counts) {
    n.requests > 0 && n.requests >= minimum && n.totalFailures as real / n.requests as real >= threshold
  }

  lemma {:induction false} TotalAll(results: seq<bool>)
    ensures Total(results, true) + Total(results, false) == |results|
  {
    if results != [] { TotalAll(results[..|results| - 1]); }
  }

  /**
   * The requests under way count as if they had succeeded: with `waiting` of them the default rule trips if and only if
   * the plain failure rate of the results would reach the threshold after that many more successes.
   */
  lemma DefaultTripCountsWaiting(minimum: nat, threshold: real, results: seq<bool>, waiting: nat)
    ensures DefaultReadyToTrip(minimum, threshold, Summary(|results| + waiting, results)) <==>
            FailureRateReaches(minimum, threshold, results + Successes(waiting))
  {
    TotalSuccesses(results, waiting);
  }

  function Successes(n: nat): seq<bool> {
    seq(n, _ => true)
  }

  predicate FailureRateReaches(minimum: nat, threshold: real, results: seq<bool>) {
    results != [] && |results| >= minimum && Total(results, false) as real / |results| as real >= threshold
  }

  lemma {:induction false} TotalSuccesses(results: seq<bool>, waiting: nat)
    ensures Total(results + Successes(waiting), false) == Total(results, false)
  {
    if waiting == 0 {
      assert results + Successes(0) == results;
    } else {
      var all := results + Successes(waiting);
      assert all[..|all| - 1] == results + Successes(waiting - 1);
      TotalSuccesses(results, waiting - 1);
    }
  }

  // ---------- The breaker itself ----------

  /** Each method changes the fields as the function of the same name does. */
  class CircuitBreaker {
    const config: Config
    var state: State
    var generation: nat
    var counts: Counts
    var expiry: Option<int>

    function Value(): Breaker
      reads this
    {
      Breaker(state, generation, counts, expiry)
    }

    constructor (config: Config, now: int)
      ensures this.config == config && Value() == Start(config, now).breaker
    {
      this.config := config;
      state, generation, counts, expiry := Closed, 0, NO_COUNTS, None;
      new;
      ToNewGeneration(now);
    }

    method ToNewGeneration(now: int)
      modifies this
      ensures Value() == NewGeneration(config, old(Value()), now)
    {
      generation := generation + 1;
      counts := NO_COUNTS;
      match state {
        case Closed => expiry := if config.interval == 0 then None else Some(now + config.interval);
        case Open => expiry := Some(now + config.timeout);
        case HalfOpen => expiry := None;
      }
    }

    method ChangeState(newState: State, now: int)
      modifies this
      ensures Value() == SetState(config, old(Value()), newState, now)
    {
      if state == newState { return; }
      state := newState;
      ToNewGeneration(now);
    }

    method Refresh(now: int)
      modifies this
      ensures Value() == CurrentState(config, old(Value()), now)
    {
      match state {
        case Closed =>
          if expiry.Some? && expiry.value < now { ToNewGeneration(now); }
        case Open =>
          if expiry.None? || expiry.value < now { ChangeState(HalfOpen, now); }
        case HalfOpen =>
      }
    }

    method Before(now: int) returns (a: Admission)
      modifies this
      ensures (Value(), a) == BeforeRequest(config, old(Value()), now)
    {
      Refresh(now);
      if state == Open {
        return BreakerOpen;
      } else if state == HalfOpen && counts.requests >= config.maxRequests {
        return TooManyRequests;
      }
      counts := counts.(requests := counts.requests + 1);
      return Admitted(generation);
    }

    method After(before: nat, success: bool, now: int)
      modifies this
      ensures Value() == AfterRequest(config, old(Value()), before, success, now)
    {
      Refresh(now);
      if generation != before { return; }
      if success {
        counts := counts.(totalSuccesses := counts.totalSuccesses + 1,
                          consecutiveSuccesses := counts.consecutiveSuccesses + 1, consecutiveFailures := 0);
        if state == HalfOpen { ChangeState(Closed, now); }
      } else {
        counts := counts.(totalFailures := counts.totalFailures + 1,
                          consecutiveFailures := counts.consecutiveFailures + 1, consecutiveSuccesses := 0);
        match state {
          case Closed => if config.readyToTrip(counts) { ChangeState(Open, now); }
          case HalfOpen => ChangeState(Open, now);
          case Open =>
        }
      }
    }

    method ResetBreaker(now: int)
      modifies this
      ensures Value() == Reset(config, old(Value()), now)
    {
      ToNewGeneration(now);
      state := Closed;
    }
  }
}
