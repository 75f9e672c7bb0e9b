/**
 * The API rate limiter: each client's bucket runs two fixed windows, and idle buckets are deleted. The windows start
 * when a request finds them over, so they do not line up with any interval; what they do bound is proved here.
 */
module RateLimiter {

  datatype Option<T> = None | Some(value: T)

  datatype Rule = Rule(name: string, limit: int, window: int, burstLimit: int, burstWindow: int)

  datatype Bucket = Bucket(requestCount: int, burstCount: int, windowStart: int, burstStart: int, lastRequest: int)

  /** The rule that a result names: its own name, or that name with the suffix for the burst limit. */
  datatype Limiting = Regular(rule: Rule) | Burst(rule: Rule)

  datatype Result = Result(
    allowed: bool,
    remaining: int,
    resetTime: int,
    retryAfter: int,
    limiting: Limiting,
    windowStart: int,
    windowEnd: int,
    requestCount: int,
    burstAvailable: int)

  /** The key of a bucket, made of the client's id and its API key. */
  datatype Key = Key(clientId: int, apiKey: int)

  // ---------- The requests that were allowed ----------

  datatype Grant = Grant(rule: Rule, time: int)

  function Granted(grants: seq<Grant>, rule: Rule, from: int, to: int): nat {
    if grants == [] then 0
    else
      var g := grants[|grants| - 1];
      Granted(grants[..|grants| - 1], rule, from, to) + if g.rule == rule && from <= g.time < to then 1 else 0
  }

  /**
   * One kind of window of one bucket: `epochs` numbers the window in which each request was allowed, and `epoch` is the
   * number of the window that is open now.
   */
  datatype Track = Track(epoch: nat, epochs: seq<nat>)

  /** How many requests were allowed in window `epoch`; how many of them under the rule. */
  function InEpoch(grants: seq<Grant>, epochs: seq<nat>, epoch: nat): nat
    requires |grants| == |epochs|
  {
    if grants == [] then 0
    else InEpoch(grants[..|grants| - 1], epochs[..|grants| - 1], epoch) + if epochs[|grants| - 1] == epoch then 1 else 0
  }

  function InEpochUnder(grants: seq<Grant>, epochs: seq<nat>, rule: Rule, epoch: nat): nat
    requires |grants| == |epochs|
  {
    if grants == [] then 0
    else InEpochUnder(grants[..|grants| - 1], epochs[..|grants| - 1], rule, epoch) +
         if epochs[|grants| - 1] == epoch && grants[|grants| - 1].rule == rule then 1 else 0
  }

  datatype Kind = Requests | Bursts

  function Limit(kind: Kind, rule: Rule): nat {
    var limit := if kind.Requests? then rule.limit else rule.burstLimit;
    if limit < 0 then 0 else limit
  }

  // ---------- What one kind of window keeps ----------

  ghost predicate Spread(grants: seq<Grant>, epochs: seq<nat>, width: int)
    requires |grants| == |epochs|
  {
    forall i, j :: 0 <= i < j < |grants| ==>
      && epochs[i] <= epochs[j]
      && (epochs[i] + 2 <= epochs[j] ==> grants[i].time + width <= grants[j].time)
  }

  ghost predicate Bounded(grants: seq<Grant>, epochs: seq<nat>, kind: Kind)
    requires |grants| == |epochs|
  {
    forall rule, epoch: nat :: InEpochUnder(grants, epochs, rule, epoch) <= Limit(kind, rule)
  }

  ghost predicate HistoryOk(grants: seq<Grant>, track: Track, kind: Kind, width: int) {
    && |grants| == |track.epochs|
    && Spread(grants, track.epochs, width) && Bounded(grants, track.epochs, kind)
    && forall i :: 0 <= i < |grants| ==> track.epochs[i] <= track.epoch
  }

  /** The window that opened at `start` has counted `count` requests. */
  ghost predicate WindowOk(grants: seq<Grant>, track: Track, kind: Kind, width: int, start: int, count: int) {
    && HistoryOk(grants, track, kind, width)
    && count == InEpoch(grants, track.epochs, track.epoch)
    && forall i :: 0 <= i < |grants| ==>
      && (track.epochs[i] < track.epoch ==> grants[i].time <= start)
      && (track.epochs[i] + 2 <= track.epoch ==> grants[i].time + width <= start)
  }

  /** The window is reset: the next one opens. */
  function Reset(track: Track): Track {
    track.(epoch := track.epoch + 1)
  }

  /** A new bucket is made. The window before its first is left out, because that of a deleted bucket is long over. */
  function Renew(track: Track): Track {
    track.(epoch := track.epoch + 2)
  }

  function Record(track: Track): Track {
    track.(epochs := track.epochs + [track.epoch])
  }

  lemma {:induction false} NoneInEpoch(grants: seq<Grant>, epochs: seq<nat>, epoch: nat)
    requires |grants| == |epochs| && forall i :: 0 <= i < |epochs| ==> epochs[i] < epoch
    ensures InEpoch(grants, epochs, epoch) == 0
  {
    if grants != [] { NoneInEpoch(grants[..|grants| - 1], epochs[..|grants| - 1], epoch); }
  }

  lemma {:induction false} UnderIsFewer(grants: seq<Grant>, epochs: seq<nat>, rule: Rule, epoch: nat)
    requires |grants| == |epochs|
    ensures InEpochUnder(grants, epochs, rule, epoch) <= InEpoch(grants, epochs, epoch)
  {
    if grants != [] { UnderIsFewer(grants[..|grants| - 1], epochs[..|grants| - 1], rule, epoch); }
  }

  lemma ResetOk(grants: seq<Grant>, track: Track, kind: Kind, width: int, start: int, count: int, now: int)
    requires WindowOk(grants, track, kind, width, start, count) && start <= now && now - start >= width
    requires forall i :: 0 <= i < |grants| ==> grants[i].time <= now
    ensures WindowOk(grants, Reset(track), kind, width, now, 0)
  {
    NoneInEpoch(grants, track.epochs, track.epoch + 1);
    hide Spread, Bounded, InEpoch;
  }

  lemma RenewOk(grants: seq<Grant>, track: Track, kind: Kind, width: int, now: int)
    requires HistoryOk(grants, track, kind, width)
    requires forall i :: 0 <= i < |grants| ==> grants[i].time + width <= now && grants[i].time <= now
    ensures WindowOk(grants, Renew(track), kind, width, now, 0)
  {
    NoneInEpoch(grants, track.epochs, track.epoch + 2);
    hide Spread, Bounded, InEpoch;
  }

  lemma RecordOk(grants: seq<Grant>, track: Track, kind: Kind, width: int, start: int, count: int, g: Grant)
    requires WindowOk(grants, track, kind, width, start, count)
    requires start <= g.time && count < Limit(kind, g.rule)
    ensures WindowOk(grants + [g], Record(track), kind, width, start, count + 1)
  {
    var grants', epochs' := grants + [g], track.epochs + [track.epoch];
    assert grants'[..|grants|] == grants && epochs'[..|grants|] == track.epochs;
    forall rule, epoch: nat ensures InEpochUnder(grants', epochs', rule, epoch) <= Limit(kind, rule) {
      assert InEpochUnder(grants, track.epochs, rule, epoch) <= Limit(kind, rule);
      UnderIsFewer(grants, track.epochs, rule, epoch);
    }
  }

  // ---------- At most twice the limit in any interval ----------

  /** The requests allowed in an interval of the window's length lie in two neighbouring windows. */
  lemma {:induction false} GrantedInTwo(grants: seq<Grant>, epochs: seq<nat>, rule: Rule, from: int, to: int, epoch: nat)
    requires |grants| == |epochs|
    requires forall i :: 0 <= i < |grants| && from <= grants[i].time < to ==> epoch <= epochs[i] <= epoch + 1
    ensures Granted(grants, rule, from, to) <=
            InEpochUnder(grants, epochs, rule, epoch) + InEpochUnder(grants, epochs, rule, epoch + 1)
  {
    if grants != [] {
      GrantedInTwo(grants[..|grants| - 1], epochs[..|grants| - 1], rule, from, to, epoch);
    }
  }

  lemma {:induction false} NoneGranted(grants: seq<Grant>, rule: Rule, from: int, to: int)
    requires forall i :: 0 <= i < |grants| ==> !(from <= grants[i].time < to)
    ensures Granted(grants, rule, from, to) == 0
  {
    if grants != [] { NoneGranted(grants[..|grants| - 1], rule, from, to); }
  }

  lemma AtMostTwice(grants: seq<Grant>, track: Track, kind: Kind, width: int, rule: Rule, from: int)
    requires HistoryOk(grants, track, kind, width)
    ensures Granted(grants, rule, from, from + width) <= 2 * Limit(kind, rule)
  {
    if i :| 0 <= i < |grants| && from <= grants[i].time < from + width {
      var first := FirstIn(grants, from, from + width, i);
      GrantedInTwo(grants, track.epochs, rule, from, from + width, track.epochs[first]);
      assert InEpochUnder(grants, track.epochs, rule, track.epochs[first]) <= Limit(kind, rule);
      assert InEpochUnder(grants, track.epochs, rule, track.epochs[first] + 1) <= Limit(kind, rule);
    } else {
      NoneGranted(grants, rule, from, from + width);
    }
  }

  lemma {:induction false} FirstIn(grants: seq<Grant>, from: int, to: int, i: nat) returns (first: nat)
    requires i < |grants| && from <= grants[i].time < to
    ensures first <= i && from <= grants[first].time < to
    ensures forall j :: 0 <= j < first ==> !(from <= grants[j].time < to)
  {
    if j :| 0 <= j < i && from <= grants[j].time < to {
      first := FirstIn(grants, from, to, j);
    } else {
      first := i;
    }
  }

  // ---------- One bucket ----------

  function NewBucket(now: int): Bucket {
    Bucket(0, 0, now, now, now)
  }

  /** The bucket once both windows that are over have been reset. */
  function Roll(b: Bucket, rule: Rule, now: int): Bucket {
    var b' := if now - b.windowStart >= rule.window then b.(requestCount := 0, windowStart := now) else b;
    if now - b.burstStart >= rule.burstWindow then b'.(burstCount := 0, burstStart := now) else b'
  }

  function BurstExceeded(b: Bucket, rule: Rule, now: int): Result {
    var end := b.burstStart + rule.burstWindow;
    Result(false, 0, end, end - now, Burst(rule), b.burstStart, end, b.burstCount, 0)
  }

  function LimitExceeded(b: Bucket, rule: Rule, now: int): Result {
    var end := b.windowStart + rule.window;
    Result(false, 0, end, end - now, Regular(rule), b.windowStart, end, b.requestCount, rule.burstLimit - b.burstCount)
  }

  function Accept(b: Bucket, now: int): Bucket {
    b.(requestCount := b.requestCount + 1, burstCount := b.burstCount + 1, lastRequest := now)
  }

  function Accepted(b: Bucket, rule: Rule): Result {
    var end := b.windowStart + rule.window;
    Result(true, rule.limit - b.requestCount, end, 0, Regular(rule), b.windowStart, end, b.requestCount,
           rule.burstLimit - b.burstCount)
  }

  function Check(b: Bucket, rule: Rule, now: int): (Bucket, Result) {
    var rolled := Roll(b, rule, now);
    if rolled.burstCount >= rule.burstLimit then (rolled, BurstExceeded(rolled, rule, now))
    else if rolled.requestCount >= rule.limit then (rolled, LimitExceeded(rolled, rule, now))
    else (Accept(rolled, now), Accepted(Accept(rolled, now), rule))
  }

  /**
   * What a client is told is true: a refused client that comes back when it is told to, with nothing allowed in between,
   * is not refused for the same reason; an allowed one has `remaining` more requests in the window that ends at
   * `windowEnd`.
   */
  lemma ResultsAreHonest(b: Bucket, rule: Rule, now: int)
    requires b.windowStart <= now && b.burstStart <= now && rule.window > 0 && rule.burstWindow > 0
    requires rule.limit > 0 && rule.burstLimit > 0
    ensures var (b', r) := Check(b, rule, now);
      var (_, again) := Check(b', rule, r.resetTime);
      && (r.allowed ==> 0 <= r.remaining && 0 <= r.burstAvailable && now < r.windowEnd)
      && (r.allowed ==> forall t :: now <= t < r.windowEnd && t - b'.burstStart < rule.burstWindow ==>
            (Check(b', rule, t).1.allowed <==> r.remaining > 0 && r.burstAvailable > 0))
      && (!r.allowed ==> r.retryAfter > 0 && r.resetTime == now + r.retryAfter && (again.allowed || again.limiting != r.limiting))
  {
  }

  /** Requests under the rule at these times are all allowed. */
  predicate AllAllowed(b: Bucket, rule: Rule, times: seq<int>)
    decreases |times|
  {
    times == [] || (Check(b, rule, times[0]).1.allowed && AllAllowed(Check(b, rule, times[0]).0, rule, times[1..]))
  }

  lemma {:induction false} AllowedWhileRoom(b: Bucket, rule: Rule, times: seq<int>)
    requires forall i :: 0 <= i < |times| ==> times[i] - b.windowStart < rule.window && times[i] - b.burstStart < rule.burstWindow
    requires b.requestCount <= rule.limit && b.burstCount <= rule.burstLimit
    ensures AllAllowed(b, rule, times) <==> |times| <= rule.limit - b.requestCount && |times| <= rule.burstLimit - b.burstCount
    decreases |times|
  {
    if times != [] && Check(b, rule, times[0]).1.allowed {
      AllowedWhileRoom(Check(b, rule, times[0]).0, rule, times[1..]);
    }
  }

  /**
   * A client has exactly the requests that it is told: after an allowed one, as many more as one likes are allowed before
   * the windows end, up to `remaining` and `burstAvailable` and not beyond.
   */
  lemma RemainingIsExact(b: Bucket, rule: Rule, now: int, times: seq<int>)
    requires Check(b, rule, now).1.allowed
    requires var (b', r) := Check(b, rule, now);
      forall i :: 0 <= i < |times| ==> times[i] < r.windowEnd && times[i] < b'.burstStart + rule.burstWindow
    ensures var (b', r) := Check(b, rule, now);
      AllAllowed(b', rule, times) <==> |times| <= r.remaining && |times| <= r.burstAvailable
  {
    AllowedWhileRoom(Check(b, rule, now).0, rule, times);
  }

  /**
   * The window that a result names is the rule's, is open now and is over at `windowEnd` and not before; a refused client
   * is told to wait for exactly that time.
   */
  lemma WindowsAreHonest(b: Bucket, rule: Rule, now: int, later: int)
    requires b.windowStart <= now && b.burstStart <= now && rule.window > 0 && rule.burstWindow > 0
    ensures var (b', r) := Check(b, rule, now);
      && r.limiting.rule == rule && (r.allowed ==> r.limiting.Regular?)
      && r.windowStart <= now < r.windowEnd && r.resetTime == r.windowEnd
      && r.windowEnd - r.windowStart == (if r.limiting.Regular? then rule.window else rule.burstWindow)
      && r.retryAfter == (if r.allowed then 0 else r.windowEnd - now)
      && (now <= later ==> (later < r.windowEnd <==>
            if r.limiting.Regular? then Roll(b', rule, later).windowStart == b'.windowStart
            else Roll(b', rule, later).burstStart == b'.burstStart))
  {
  }

  datatype History = History(grants: seq<Grant>, requests: Track, bursts: Track)

  const NO_HISTORY := History([], Track(0, []), Track(0, []))

  /** The shortest windows of all rules, which share the buckets, and the time that a bucket is kept. */
  datatype Config = Config(window: int, burstWindow: int, bucketTTL: int)

  /** Both windows are shorter than the time a bucket is kept. */
  predicate ConfigOk(c: Config) {
    c.window <= c.bucketTTL && c.burstWindow <= c.bucketTTL && 0 <= c.bucketTTL
  }

  ghost predicate HistoriesOk(c: Config, h: History) {
    HistoryOk(h.grants, h.requests, Requests, c.window) && HistoryOk(h.grants, h.bursts, Bursts, c.burstWindow)
  }

  ghost predicate BucketOk(c: Config, b: Bucket, h: History) {
    && WindowOk(h.grants, h.requests, Requests, c.window, b.windowStart, b.requestCount)
    && WindowOk(h.grants, h.bursts, Bursts, c.burstWindow, b.burstStart, b.burstCount)
  }

  ghost predicate Before(grants: seq<Grant>, time: int) {
    forall i :: 0 <= i < |grants| ==> grants[i].time <= time
  }

  /** A client with or without a bucket: what it was allowed before it was forgotten is too old to matter. */
  ghost predicate ClientOk(c: Config, o: Option<Bucket>, h: History, clock: int) {
    match o
    case None => HistoriesOk(c, h) && Before(h.grants, clock - c.bucketTTL)
    case Some(b) =>
      && BucketOk(c, b, h) && Before(h.grants, b.lastRequest)
      && b.lastRequest <= clock && b.windowStart <= clock && b.burstStart <= clock
  }

  function RollHistory(b: Bucket, rule: Rule, h: History, now: int): History {
    var h' := if now - b.windowStart >= rule.window then h.(requests := Reset(h.requests)) else h;
    if now - b.burstStart >= rule.burstWindow then h'.(bursts := Reset(h.bursts)) else h'
  }

  function RecordHistory(h: History, g: Grant): History {
    History(h.grants + [g], Record(h.requests), Record(h.bursts))
  }

  function CheckHistory(b: Bucket, rule: Rule, h: History, now: int): History {
    var h' := RollHistory(b, rule, h, now);
    if Check(b, rule, now).1.allowed then RecordHistory(h', Grant(rule, now)) else h'
  }

  lemma NewBucketOk(c: Config, h: History, clock: int, now: int)
    requires ConfigOk(c) && ClientOk(c, None, h, clock) && clock <= now
    ensures ClientOk(c, Some(NewBucket(now)), h.(requests := Renew(h.requests), bursts := Renew(h.bursts)), now)
  {
    RenewOk(h.grants, h.requests, Requests, c.window, now);
    RenewOk(h.grants, h.bursts, Bursts, c.burstWindow, now);
    hide WindowOk, HistoryOk, Renew;
  }

  lemma RollOk(c: Config, b: Bucket, rule: Rule, h: History, clock: int, now: int)
    requires ClientOk(c, Some(b), h, clock) && clock <= now
    requires c.window <= rule.window && c.burstWindow <= rule.burstWindow
    ensures ClientOk(c, Some(Roll(b, rule, now)), RollHistory(b, rule, h, now), now)
    ensures RollHistory(b, rule, h, now).grants == h.grants
  {
    if now - b.windowStart >= rule.window {
      ResetOk(h.grants, h.requests, Requests, c.window, b.windowStart, b.requestCount, now);
    }
    if now - b.burstStart >= rule.burstWindow {
      ResetOk(h.grants, h.bursts, Bursts, c.burstWindow, b.burstStart, b.burstCount, now);
    }
    hide WindowOk, Reset;
  }

  lemma CheckOk(c: Config, b: Bucket, rule: Rule, h: History, clock: int, now: int)
    requires ClientOk(c, Some(b), h, clock) && clock <= now
    requires c.window <= rule.window && c.burstWindow <= rule.burstWindow
    ensures ClientOk(c, Some(Check(b, rule, now).0), CheckHistory(b, rule, h, now), now)
  {
    var b', h' := Roll(b, rule, now), RollHistory(b, rule, h, now);
    RollOk(c, b, rule, h, clock, now);
    if Check(b, rule, now).1.allowed {
      var g := Grant(rule, now);
      RecordOk(h'.grants, h'.requests, Requests, c.window, b'.windowStart, b'.requestCount, g);
      RecordOk(h'.grants, h'.bursts, Bursts, c.burstWindow, b'.burstStart, b'.burstCount, g);
    }
    hide WindowOk, Record;
  }

  /**
   * In terms of the requests that were allowed: a request is refused if and only if one of the open windows has used up
   * its limit, the burst window first, and the numbers in the result are those of the open windows.
   */
  lemma CountsAreHonest(c: Config, b: Bucket, rule: Rule, h: History, clock: int, now: int)
    requires ClientOk(c, Some(b), h, clock) && clock <= now
    requires c.window <= rule.window && c.burstWindow <= rule.burstWindow
    ensures var (_, r) := Check(b, rule, now);
      var open, after := RollHistory(b, rule, h, now), CheckHistory(b, rule, h, now);
      |open.grants| == |open.requests.epochs| == |open.bursts.epochs| &&
      |after.grants| == |after.requests.epochs| == |after.bursts.epochs| &&
      var requests, bursts := InEpoch(open.grants, open.requests.epochs, open.requests.epoch),
                              InEpoch(open.grants, open.bursts.epochs, open.bursts.epoch);
      && (r.allowed <==> requests < rule.limit && bursts < rule.burstLimit)
      && (r.limiting == Burst(rule) <==> bursts >= rule.burstLimit)
      && (r.allowed ==>
            && r.requestCount == InEpoch(after.grants, after.requests.epochs, after.requests.epoch) == requests + 1
            && r.remaining == rule.limit - r.requestCount
            && r.burstAvailable == rule.burstLimit - InEpoch(after.grants, after.bursts.epochs, after.bursts.epoch))
      && (!r.allowed ==>
            && r.remaining == 0
            && (r.limiting == Burst(rule) ==> r.requestCount == bursts && r.burstAvailable == 0)
            && (r.limiting == Regular(rule) ==> r.requestCount == requests && r.burstAvailable == rule.burstLimit - bursts))
  {
    RollOk(c, b, rule, h, clock, now);
    CheckOk(c, b, rule, h, clock, now);
    hide RollHistory, InEpoch, HistoryOk;
  }

  lemma LaterOk(c: Config, o: Option<Bucket>, h: History, clock: int, now: int)
    requires ClientOk(c, o, h, clock) && clock <= now
    ensures ClientOk(c, o, h, now)
  {
  }

  /**
   * The bound is reached: a request that another rule refuses opens a window, and the whole limit is used at its end and
   * again when the next one opens.
   */
  lemma TwiceIsReached()
    ensures var rule, other := Rule("api", 1, 10, 5, 10), Rule("login", 1, 10, 0, 10);
      var (b1, _) := Check(NewBucket(0), other, 0);
      var (b2, r2) := Check(b1, rule, 9);
      var (_, r3) := Check(b2, rule, 10);
      && r2.allowed && r3.allowed
      && Granted([Grant(rule, 9), Grant(rule, 10)], rule, 9, 9 + rule.window) == 2 * Limit(Requests, rule)
  {
    var rule, other := Rule("api", 1, 10, 5, 10), Rule("login", 1, 10, 0, 10);
    assert Check(NewBucket(0), other, 0).0 == Bucket(0, 0, 0, 0, 0);
    assert Check(Bucket(0, 0, 0, 0, 0), rule, 9).0 == Bucket(1, 1, 0, 0, 9);
    assert [Grant(rule, 9), Grant(rule, 10)][..1] == [Grant(rule, 9)];
    assert Granted([Grant(rule, 9)], rule, 9, 19) == 1;
  }

  // ---------- Rules with different windows on one bucket ----------

  datatype Arrival = Arrival(rule: Rule, time: int)

  /** One bucket, made at time `start`, with what it has allowed. */
  datatype Client = Client(bucket: Bucket, grants: seq<Grant>)

  function Serve(s: Client, a: Arrival): Client {
    var (b, r) := Check(s.bucket, a.rule, a.time);
    Client(b, if r.allowed then s.grants + [Grant(a.rule, a.time)] else s.grants)
  }

  function ServeAll(start: int, arrivals: seq<Arrival>): Client {
    if arrivals == [] then Client(NewBucket(start), [])
    else Serve(ServeAll(start, arrivals[..|arrivals| - 1]), arrivals[|arrivals| - 1])
  }

  function LastTime(start: int, arrivals: seq<Arrival>): int {
    if arrivals == [] then start else arrivals[|arrivals| - 1].time
  }

  /** Requests under these rules, each not before the one before it. */
  ghost predicate InOrder(start: int, arrivals: seq<Arrival>, rules: Rule -> bool) {
    arrivals != [] ==>
      var init, last := arrivals[..|arrivals| - 1], arrivals[|arrivals| - 1];
      InOrder(start, init, rules) && rules(last.rule) && LastTime(start, init) <= last.time
  }

  ghost predicate IsTrack(s: Client, track: Track, width: int, now: int) {
    && WindowOk(s.grants, track, Requests, width, s.bucket.windowStart, s.bucket.requestCount)
    && Before(s.grants, now) && s.bucket.windowStart <= now
  }

  lemma ServeTrack(s: Client, track: Track, width: int, clock: int, a: Arrival) returns (track': Track)
    requires IsTrack(s, track, width, clock) && clock <= a.time && width <= a.rule.window
    ensures IsTrack(Serve(s, a), track', width, a.time)
  {
    track' := track;
    var b := Roll(s.bucket, a.rule, a.time);
    if a.time - s.bucket.windowStart >= a.rule.window {
      ResetOk(s.grants, track, Requests, width, s.bucket.windowStart, s.bucket.requestCount, a.time);
      track' := Reset(track);
    }
    if Check(s.bucket, a.rule, a.time).1.allowed {
      RecordOk(s.grants, track', Requests, width, b.windowStart, b.requestCount, Grant(a.rule, a.time));
      track' := Record(track');
    }
    hide WindowOk, Record, Reset;
  }

  lemma {:induction false} HasTrack(start: int, arrivals: seq<Arrival>, rules: Rule -> bool, width: int) returns (track: Track)
    requires InOrder(start, arrivals, rules) && forall r :: rules(r) ==> width <= r.window
    ensures IsTrack(ServeAll(start, arrivals), track, width, LastTime(start, arrivals))
  {
    if arrivals == [] {
      track := Track(0, []);
    } else {
      var init, last := arrivals[..|arrivals| - 1], arrivals[|arrivals| - 1];
      track := HasTrack(start, init, rules, width);
      track := ServeTrack(ServeAll(start, init), track, width, LastTime(start, init), last);
    }
  }

  /** The requests of the rule allowed in the interval of its window that begins at `from`. */
  function InWindow(grants: seq<Grant>, rule: Rule, from: int): nat {
    Granted(grants, rule, from, from + rule.window)
  }

  ghost predicate Bounds(grants: seq<Grant>, rule: Rule) {
    forall from :: InWindow(grants, rule, from) <= 2 * Limit(Requests, rule)
  }

  lemma NoShorterBounds(start: int, arrivals: seq<Arrival>, rules: Rule -> bool, rule: Rule)
    requires InOrder(start, arrivals, rules) && forall r :: rules(r) ==> rule.window <= r.window
    ensures Bounds(ServeAll(start, arrivals).grants, rule)
  {
    hide ServeAll, Granted, HistoryOk, InOrder;
    var track := HasTrack(start, arrivals, rules, rule.window);
    var grants := ServeAll(start, arrivals).grants;
    forall from ensures InWindow(grants, rule, from) <= 2 * Limit(Requests, rule) {
      AtMostTwice(grants, track, Requests, rule.window, rule, from);
    }
  }

  /** One more request. */
  lemma ArriveOnce(start: int, before: seq<Arrival>, rules: Rule -> bool, a: Arrival) returns (arrivals: seq<Arrival>)
    requires InOrder(start, before, rules) && rules(a.rule) && LastTime(start, before) <= a.time
    ensures InOrder(start, arrivals, rules) && LastTime(start, arrivals) == a.time
    ensures ServeAll(start, arrivals) == Serve(ServeAll(start, before), a)
  {
    arrivals := before + [a];
    assert arrivals[..|before|] == before;
  }

  lemma GrantedSnoc(grants: seq<Grant>, g: Grant, rule: Rule, from: int)
    ensures InWindow(grants + [g], rule, from) ==
            InWindow(grants, rule, from) + if g.rule == rule && from <= g.time < from + rule.window then 1 else 0
  {
    assert (grants + [g])[..|grants|] == grants;
  }

  /** k requests of the rule at one time, which the open window and the burst window still allow. */
  lemma {:induction false} ArriveOften(
    start: int, before: seq<Arrival>, rules: Rule -> bool, rule: Rule, t: int, k: nat, from: int) returns (arrivals: seq<Arrival>)
    requires InOrder(start, before, rules) && rules(rule) && LastTime(start, before) <= t
    requires from <= t < from + rule.window
    requires var b := ServeAll(start, before).bucket;
      && t - b.windowStart < rule.window && b.requestCount + k <= rule.limit
      && 0 <= b.burstCount && b.burstCount + k <= rule.burstLimit
    ensures InOrder(start, arrivals, rules) && LastTime(start, arrivals) <= t
    ensures var s, s' := ServeAll(start, before), ServeAll(start, arrivals);
      && s'.bucket.windowStart == s.bucket.windowStart && s'.bucket.requestCount == s.bucket.requestCount + k
      && 0 <= s'.bucket.burstCount <= s.bucket.burstCount + k
      && InWindow(s'.grants, rule, from) == InWindow(s.grants, rule, from) + k
  {
    hide ServeAll, InWindow, InOrder, LastTime;
    arrivals := before;
    if k > 0 {
      arrivals := ArriveOften(start, before, rules, rule, t, k - 1, from);
      GrantedSnoc(ServeAll(start, arrivals).grants, Grant(rule, t), rule, from);
      arrivals := ArriveOnce(start, arrivals, rules, Arrival(rule, t));
    }
  }

  /** A request of another rule, for which the window is over. */
  lemma OtherOpens(
    start: int, before: seq<Arrival>, rules: Rule -> bool, rule: Rule, other: Rule, t: int, from: int)
    returns (arrivals: seq<Arrival>)
    requires InOrder(start, before, rules) && rules(other) && LastTime(start, before) <= t
    requires t - ServeAll(start, before).bucket.windowStart >= other.window && 0 <= ServeAll(start, before).bucket.burstCount
    ensures InOrder(start, arrivals, rules) && LastTime(start, arrivals) == t
    ensures var s, s' := ServeAll(start, before), ServeAll(start, arrivals);
      && s'.bucket.windowStart == t && 0 <= s'.bucket.requestCount <= 1
      && 0 <= s'.bucket.burstCount <= s.bucket.burstCount + 1
      && InWindow(s'.grants, rule, from) >= InWindow(s.grants, rule, from)
  {
    hide ServeAll, InWindow, InOrder, LastTime;
    GrantedSnoc(ServeAll(start, before).grants, Grant(other, t), rule, from);
    arrivals := ArriveOnce(start, before, rules, Arrival(other, t));
  }

  /** Each time the other rule opens a window, all but one of the limit is allowed again. */
  lemma ShorterBreaks(start: int, rules: Rule -> bool, rule: Rule, other: Rule) returns (arrivals: seq<Arrival>, from: int)
    requires rules(rule) && rules(other) && 3 <= rule.limit && 3 * rule.limit <= rule.burstLimit
    requires 0 < rule.window && other.window < rule.window
    ensures InOrder(start, arrivals, rules)
    ensures InWindow(ServeAll(start, arrivals).grants, rule, from) > 2 * Limit(Requests, rule)
  {
    var width := if other.window > 0 then other.window else 0;
    from := start + width;
    assert ServeAll(start, []) == Client(NewBucket(start), []) && InOrder(start, [], rules) && LastTime(start, []) == start;
    hide ServeAll, InWindow, InOrder, LastTime;
    arrivals := ArriveOften(start, [], rules, rule, from, rule.limit, from);
    arrivals := OtherOpens(start, arrivals, rules, rule, other, from, from);
    arrivals := ArriveOften(start, arrivals, rules, rule, from, rule.limit - 1, from);
    arrivals := OtherOpens(start, arrivals, rules, rule, other, from + width, from);
    arrivals := ArriveOften(start, arrivals, rules, rule, from + width, rule.limit - 1, from);
  }

  /**
   * Where rules share a bucket, a rule of which the burst limit does not get in the way keeps to twice its limit in every
   * interval of its window, for every run, if and only if no rule has a shorter window.
   */
  lemma SharedBucketIff(start: int, rules: Rule -> bool, rule: Rule)
    requires rules(rule) && 0 < rule.window && 3 <= rule.limit && 3 * rule.limit <= rule.burstLimit
    ensures (forall arrivals :: InOrder(start, arrivals, rules) ==> Bounds(ServeAll(start, arrivals).grants, rule)) <==>
            (forall r :: rules(r) ==> rule.window <= r.window)
  {
    hide ServeAll, InWindow, InOrder;
    if other :| rules(other) && other.window < rule.window {
      var arrivals, from := ShorterBreaks(start, rules, rule, other);
      assert !Bounds(ServeAll(start, arrivals).grants, rule);
    } else {
      forall arrivals | InOrder(start, arrivals, rules) ensures Bounds(ServeAll(start, arrivals).grants, rule) {
        NoShorterBounds(start, arrivals, rules, rule);
      }
    }
  }

  // ---------- The limiter ----------

  function Lookup(buckets: map<Key, Bucket>, key: Key): Option<Bucket> {
    if key in buckets then Some(buckets[key]) else None
  }

  function HistoryOf(histories: map<Key, History>, key: Key): History {
    if key in histories then histories[key] else NO_HISTORY
  }

  lemma HistoryUpdate(histories: map<Key, History>, key: Key, h: History)
    ensures forall k :: HistoryOf(histories[key := h], k) == if k == key then h else HistoryOf(histories, k)
  {
    var histories' := histories[key := h];
    forall k ensures HistoryOf(histories', k) == if k == key then h else HistoryOf(histories, k) {
    }
  }

  ghost predicate TableOk(c: Config, buckets: map<Key, Bucket>, histories: map<Key, History>, clock: int) {
    forall key :: ClientOk(c, Lookup(buckets, key), HistoryOf(histories, key), clock)
  }

  lemma TableUpdate(
    c: Config, buckets: map<Key, Bucket>, histories: map<Key, History>, clock: int, key: Key, b: Bucket, h: History, now: int)
    requires TableOk(c, buckets, histories, clock) && clock <= now && ClientOk(c, Some(b), h, now)
    ensures TableOk(c, buckets[key := b], histories[key := h], now)
  {
    hide ClientOk, NO_HISTORY;
    var buckets', histories' := buckets[key := b], histories[key := h];
    forall k ensures ClientOk(c, Lookup(buckets', k), HistoryOf(histories', k), now) {
      if k != key {
        assert ClientOk(c, Lookup(buckets, k), HistoryOf(histories, k), clock);
        LaterOk(c, Lookup(buckets, k), HistoryOf(histories, k), clock, now);
      }
    }
  }

  /** checkRateLimit on the bucket of the client. */
  method Decide(before: Bucket, rule: Rule, now: int) returns (bucket: Bucket, result: Result)
    ensures (bucket, result) == Check(before, rule, now)
  {
    bucket := before;
    if now - bucket.windowStart >= rule.window {
      bucket := bucket.(requestCount := 0, windowStart := now);
    }
    if now - bucket.burstStart >= rule.burstWindow {
      bucket := bucket.(burstCount := 0, burstStart := now);
    }
    if bucket.burstCount >= rule.burstLimit {
      result := BurstExceeded(bucket, rule, now);
    } else if bucket.requestCount >= rule.limit {
      result := LimitExceeded(bucket, rule, now);
    } else {
      bucket := bucket.(requestCount := bucket.requestCount + 1, burstCount := bucket.burstCount + 1, lastRequest := now);
      result := Accepted(bucket, rule);
    }
  }

  /**
   * `buckets` is the map of the limiter. `histories` records for each key every request that was ever allowed, and
   * `clock` the time of the last call.
   */
  class APIRateLimiter {
    const config: Config
    var buckets: map<Key, Bucket>
    ghost var histories: map<Key, History>
    ghost var clock: int

    ghost predicate Valid()
      reads this
    {
      ConfigOk(config) && TableOk(config, buckets, histories, clock)
    }

    ghost function Grants(key: Key): seq<Grant>
      reads this
    {
      HistoryOf(histories, key).grants
    }

    ghost function BucketFor(key: Key, now: int): Bucket
      reads this
    {
      if key in buckets then buckets[key] else NewBucket(now)
    }

    constructor (config: Config, ghost now: int)
      requires ConfigOk(config)
      ensures Valid() && clock == now && this.config == config && forall key :: Grants(key) == []
    {
      this.config := config;
      buckets, histories, clock := map[], map[], now;
    }

    /** The bucket of the client, which is made if there is none. */
    method GetOrCreateBucket(key: Key, now: int) returns (bucket: Bucket)
      requires Valid() && clock <= now
      modifies this
      ensures Valid() && clock == now
      ensures bucket == old(BucketFor(key, now)) && buckets == old(buckets)[key := bucket]
      ensures forall k :: Grants(k) == old(Grants(k))
    {
      ghost var h := HistoryOf(histories, key);
      assert ClientOk(config, Lookup(buckets, key), h, clock);
      hide ClientOk, NO_HISTORY, TableOk;
      if key in buckets {
        assert buckets - {} == buckets;
        clock := now;
        bucket := buckets[key];
        assert buckets == buckets[key := bucket];
        return;
      }
      bucket := NewBucket(now);
      NewBucketOk(config, h, clock, now);
      h := h.(requests := Renew(h.requests), bursts := Renew(h.bursts));
      TableUpdate(config, buckets, histories, clock, key, bucket, h, now);
      buckets := buckets[key := bucket];
      histories := histories[key := h];
      clock := now;
    }

    /** getOrCreateBucket and checkRateLimit for one request, at a time that is not before that of the last call. */
    method CheckRateLimit(key: Key, rule: Rule, now: int) returns (result: Result)
      requires Valid() && clock <= now
      requires config.window <= rule.window && config.burstWindow <= rule.burstWindow
      modifies this
      ensures Valid() && clock == now
      ensures Grants(key) == old(Grants(key)) + if result.allowed then [Grant(rule, now)] else []
      ensures forall k :: k != key ==> Grants(k) == old(Grants(k))
      ensures result == Check(old(BucketFor(key, now)), rule, now).1
      ensures buckets == old(buckets)[key := Check(old(BucketFor(key, now)), rule, now).0]
    {
      var bucket := GetOrCreateBucket(key, now);
      ghost var h := HistoryOf(histories, key);
      assert ClientOk(config, Some(bucket), h, clock) by { assert Lookup(buckets, key) == Some(bucket); }
      hide ClientOk, HistoryOf, Lookup, TableOk, Check, CheckHistory, ConfigOk, NewBucket;
      CheckOk(config, bucket, rule, h, now, now);
      h := CheckHistory(bucket, rule, h, now);
      bucket, result := Decide(bucket, rule, now);
      TableUpdate(config, buckets, histories, clock, key, bucket, h, now);
      HistoryUpdate(histories, key, h);
      buckets := buckets[key := bucket];
      histories := histories[key := h];
    }

    /** cleanupBuckets deletes exactly the buckets without an allowed request for longer than the TTL. */
    method CleanupBuckets(now: int)
      requires Valid() && clock <= now
      modifies this
      ensures Valid() && clock == now
      ensures forall key :: Grants(key) == old(Grants(key))
      ensures forall key :: key in buckets <==>
        key in old(buckets) && old(buckets)[key].lastRequest >= now - config.bucketTTL
      ensures forall key :: key in buckets ==> buckets[key] == old(buckets)[key]
    {
      var cutoff := now - config.bucketTTL;
      var toDelete: set<Key> := {};
      var todo := buckets.Keys;
      while todo != {}
        invariant todo <= buckets.Keys
        invariant forall key :: key in toDelete <==>
          key in buckets.Keys - todo && buckets[key].lastRequest < cutoff
        decreases |todo|
      {
        var key :| key in todo;
        todo := todo - {key};
        if buckets[key].lastRequest < cutoff {
          toDelete := toDelete + {key};
        }
      }
      buckets := buckets - toDelete;
      clock := now;
    }

    /**
     * Any half-open interval of the length of the shortest window contains at most twice a rule's limit of its allowed
     * requests, whatever was checked, deleted and created again; and the same for the burst windows and limits. So it
     * does for the rule's own window, if no rule has a shorter one.
     */
    lemma AtMostTwiceTheLimit(key: Key, rule: Rule, from: int)
      requires Valid()
      ensures Granted(Grants(key), rule, from, from + config.window) <= 2 * Limit(Requests, rule)
      ensures Granted(Grants(key), rule, from, from + config.burstWindow) <= 2 * Limit(Bursts, rule)
    {
      var h := HistoryOf(histories, key);
      assert ClientOk(config, Lookup(buckets, key), h, clock);
      AtMostTwice(h.grants, h.requests, Requests, config.window, rule, from);
      AtMostTwice(h.grants, h.bursts, Bursts, config.burstWindow, rule, from);
    }
  }
}
