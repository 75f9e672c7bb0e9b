/** Splitting the id range of a table into chunks, with Go's int64 arithmetic written out. */
module ChunkPlan {

  import opened GoInt

  function Min(a: int, b: int): int {
    if a <= b then a else b
  }

  datatype Chunk = Chunk(id: int, start: int, end: int) {
    predicate Has(id: int) {
      start <= id <= end
    }
  }

  /** The chunk size after the adjustment for very many chunks; Go's division agrees for a non-negative total. */
  function ChunkSize(total: nat, configured: int): int
    requires configured != 0
  {
    if total / configured > 1000 then total / 1000 else configured
  }

  // ---------- The loop of createChunkPlan, iteration by iteration ----------

  /** The value of `startID` when the loop test is evaluated for the (k+1)-st time. */
  function StartAt(minID: int, size: int, k: nat): int {
    if k == 0 then minID else Wrap(StartAt(minID, size, k - 1) + size)
  }

  function ChunkAt(minID: int, maxID: int, size: int, k: nat): Chunk {
    var start := StartAt(minID, size, k);
    Chunk(k, start, Min(Wrap(start + size - 1), maxID))
  }

  function PlanAfter(minID: int, maxID: int, size: int, n: nat): seq<Chunk> {
    seq(n, k requires 0 <= k => ChunkAt(minID, maxID, size, k))
  }

  /** The loop runs exactly `n` times. */
  ghost predicate StopsAfter(minID: int, maxID: int, size: int, n: nat) {
    && StartAt(minID, size, n) > maxID
    && forall k: nat :: k < n ==> StartAt(minID, size, k) <= maxID
  }

  /** Non-empty chunks, numbered in order, contiguous, from exactly `minID` to exactly `maxID`. */
  ghost predicate ExactCover(plan: seq<Chunk>, minID: int, maxID: int) {
    && |plan| > 0
    && plan[0].start == minID
    && plan[|plan| - 1].end == maxID
    && (forall i :: 0 <= i < |plan| ==> plan[i].id == i && plan[i].start <= plan[i].end)
    && (forall i :: 0 < i < |plan| ==> plan[i].start == plan[i - 1].end + 1)
  }

  /** The loop ends, and what it has appended by then covers the range exactly. */
  ghost predicate HasExactPlan(minID: int, maxID: int, size: int) {
    exists n: nat :: StopsAfter(minID, maxID, size, n) && ExactCover(PlanAfter(minID, maxID, size, n), minID, maxID)
  }

  function LastStart(minID: int, maxID: int, size: int): int
    requires size > 0 && minID <= maxID
  {
    minID + (maxID - minID) / size * size
  }

  /** For a positive size: adding the size to the last chunk's start stays in int64. */
  predicate FitsInt64(minID: int, maxID: int, size: int)
    requires size > 0 && minID <= maxID
  {
    LastStart(minID, maxID, size) + size <= INT64_MAX
  }

  // ---------- When the plan is exact ----------

  lemma WrapId(x: int)
    requires IsInt64(x)
    ensures Wrap(x) == x
  {
  }

  lemma WrapOver(x: int)
    requires INT64_MAX < x <= INT64_MAX + TWO_TO_THE_64
    ensures Wrap(x) == x - TWO_TO_THE_64
  {
  }

  /** `k * size`, by repeated addition. */
  ghost function Times(k: nat, size: int): int {
    if k == 0 then 0 else Times(k - 1, size) + size
  }

  lemma {:induction false} TimesIsProduct(k: nat, size: int)
    ensures Times(k, size) == k * size
  {
    if k > 0 {
      TimesIsProduct(k - 1, size);
      assert (k - 1) * size + size == k * size;
    }
  }

  lemma {:induction false} TimesMonotone(j: nat, k: nat, size: int)
    requires size > 0 && j <= k
    ensures 0 <= Times(j, size) <= Times(k, size)
    decreases k
  {
    if k > 0 {
      TimesMonotone(if j == k then j - 1 else j, k - 1, size);
    }
  }

  lemma {:induction false} TimesAtLeast(k: nat, size: int)
    requires size > 0
    ensures Times(k, size) >= k
  {
    if k > 0 { TimesAtLeast(k - 1, size); }
  }

  /** Chunk number `last` is the one that reaches `maxID`. */
  ghost predicate IsLast(minID: int, maxID: int, size: int, last: nat) {
    && IsInt64(minID) && IsInt64(maxID) && size > 0
    && minID + Times(last, size) <= maxID < minID + Times(last, size) + size
  }

  lemma LastExists(minID: int, maxID: int, size: int) returns (last: nat)
    requires IsInt64(minID) && IsInt64(maxID) && minID <= maxID && size > 0
    ensures IsLast(minID, maxID, size, last)
    ensures LastStart(minID, maxID, size) == minID + Times(last, size)
  {
    last := (maxID - minID) / size;
    TimesIsProduct(last, size);
  }

  /** Up to the last chunk the loop variable is the mathematical value. */
  lemma {:induction false} StartExact(minID: int, maxID: int, size: int, last: nat, k: nat)
    requires IsLast(minID, maxID, size, last) && k <= last
    ensures StartAt(minID, size, k) == minID + Times(k, size) <= minID + Times(last, size)
  {
    TimesMonotone(k, last, size);
    if k > 0 {
      StartExact(minID, maxID, size, last, k - 1);
      WrapId(minID + Times(k, size));
    }
  }

  lemma InnerChunk(minID: int, maxID: int, size: int, last: nat, k: nat)
    requires IsLast(minID, maxID, size, last) && k < last
    ensures ChunkAt(minID, maxID, size, k) == Chunk(k, StartAt(minID, size, k), StartAt(minID, size, k) + size - 1)
    ensures StartAt(minID, size, k + 1) == StartAt(minID, size, k) + size <= maxID
  {
    StartExact(minID, maxID, size, last, k);
    StartExact(minID, maxID, size, last, k + 1);
    WrapId(minID + Times(k, size) + size - 1);
  }

  /** The last chunk ends at `maxID`, and the loop variable then passes it without wrapping. */
  lemma FinalChunk(minID: int, maxID: int, size: int, last: nat)
    requires IsLast(minID, maxID, size, last) && minID + Times(last, size) + size <= INT64_MAX
    ensures ChunkAt(minID, maxID, size, last) == Chunk(last, StartAt(minID, size, last), maxID)
    ensures StartAt(minID, size, last) <= maxID < StartAt(minID, size, last + 1)
  {
    StartExact(minID, maxID, size, last, last);
    var start := StartAt(minID, size, last);
    WrapId(start + size);
    WrapId(start + size - 1);
  }

  lemma PlanEntry(minID: int, maxID: int, size: int, last: nat, i: nat)
    requires IsLast(minID, maxID, size, last) && minID + Times(last, size) + size <= INT64_MAX
    requires i <= last
    ensures var c := ChunkAt(minID, maxID, size, i); c.id == i && c.start <= c.end
    ensures i > 0 ==> ChunkAt(minID, maxID, size, i).start == ChunkAt(minID, maxID, size, i - 1).end + 1
  {
    if i < last {
      InnerChunk(minID, maxID, size, last, i);
    } else {
      FinalChunk(minID, maxID, size, last);
    }
    if i > 0 {
      InnerChunk(minID, maxID, size, last, i - 1);
    }
  }

  lemma FitsGivesExact(minID: int, maxID: int, size: int) returns (n: nat)
    requires IsInt64(minID) && IsInt64(maxID) && minID <= maxID && 0 < size
    requires FitsInt64(minID, maxID, size)
    ensures StopsAfter(minID, maxID, size, n) && ExactCover(PlanAfter(minID, maxID, size, n), minID, maxID)
    ensures n <= maxID - minID + 1
  {
    var last := LastExists(minID, maxID, size);
    TimesAtLeast(last, size);
    hide LastStart, FitsInt64;
    n := last + 1;
    FinalChunk(minID, maxID, size, last);
    forall k: nat | k <= last ensures StartAt(minID, size, k) <= maxID {
      StartExact(minID, maxID, size, last, k);
    }
    var plan := PlanAfter(minID, maxID, size, n);
    forall i: nat | i < n
      ensures plan[i].id == i && plan[i].start <= plan[i].end
      ensures i > 0 ==> plan[i].start == plan[i - 1].end + 1
    {
      PlanEntry(minID, maxID, size, last, i);
    }
  }

  /** When the increment wraps, no number of iterations yields a plan that covers the range exactly. */
  lemma OverflowGivesNoExactPlan(minID: int, maxID: int, size: int, last: nat, n: nat)
    requires IsLast(minID, maxID, size, last) && size <= INT64_MAX < minID + Times(last, size) + size
    requires StopsAfter(minID, maxID, size, n)
    ensures !ExactCover(PlanAfter(minID, maxID, size, n), minID, maxID)
  {
    StartExact(minID, maxID, size, last, last);
    var lastStart := StartAt(minID, size, last);
    WrapOver(lastStart + size);
    if n <= last {
      StartExact(minID, maxID, size, last, n);
      assert false;
    } else if n == last + 1 {
      assert false;
    } else {
      var plan := PlanAfter(minID, maxID, size, n);
      assert plan[last].start == lastStart;
      assert plan[last + 1].start == lastStart + size - TWO_TO_THE_64;
      if lastStart + size - 1 > INT64_MAX {
        WrapOver(lastStart + size - 1);
      } else {
        WrapId(lastStart + size - 1);
      }
    }
  }

  /**
   * A size that is not positive is never checked. The loop then leaves the range only if its first addition wraps, and
   * the plan is the whole range as one chunk.
   */
  predicate WrapsBeyond(minID: int, maxID: int, size: int) {
    minID + size < INT64_MIN && minID + size + TWO_TO_THE_64 > maxID
  }

  lemma WrapsGivesExact(minID: int, maxID: int, size: int)
    requires IsInt64(minID) && IsInt64(maxID) && minID <= maxID && INT64_MIN <= size <= 0 && WrapsBeyond(minID, maxID, size)
    ensures StopsAfter(minID, maxID, size, 1) && ExactCover(PlanAfter(minID, maxID, size, 1), minID, maxID)
  {
    WrapUnder(minID + size);
    WrapUnder(minID + size - 1);
    hide Wrap;
    assert StartAt(minID, size, 0) == minID;
    assert StartAt(minID, size, 1) == Wrap(minID + size);
  }

  lemma WrapUnder(x: int)
    requires INT64_MIN - TWO_TO_THE_64 <= x < INT64_MIN
    ensures Wrap(x) == x + TWO_TO_THE_64
  {
  }

  /** One round with a size that is not positive: a chunk that is not empty wraps at its end. */
  lemma DownwardChunk(minID: int, maxID: int, size: int, k: nat)
    requires INT64_MIN <= size <= 0
    requires var start := StartAt(minID, size, k); IsInt64(start) && start <= Min(Wrap(start + size - 1), maxID)
    ensures var start := StartAt(minID, size, k);
      && start + size - 1 < INT64_MIN
      && StartAt(minID, size, k + 1) == if start + size == INT64_MIN then INT64_MIN else start + size + TWO_TO_THE_64
  {
    var start := StartAt(minID, size, k);
    if start + size - 1 >= INT64_MIN { WrapId(start + size - 1); }
    if start + size == INT64_MIN { WrapId(start + size); } else { WrapUnder(start + size); }
  }

  lemma DownwardGivesNoExactPlan(minID: int, maxID: int, size: int, n: nat)
    requires IsInt64(minID) && IsInt64(maxID) && minID <= maxID && INT64_MIN <= size <= 0
    requires !WrapsBeyond(minID, maxID, size) && StopsAfter(minID, maxID, size, n)
    ensures !ExactCover(PlanAfter(minID, maxID, size, n), minID, maxID)
  {
    hide Wrap;
    var plan := PlanAfter(minID, maxID, size, n);
    if ExactCover(plan, minID, maxID) {
      assert plan[0].start == StartAt(minID, size, 0) == minID <= plan[0].end;
      DownwardChunk(minID, maxID, size, 0);
      var second := StartAt(minID, size, 1);
      assert second <= maxID;
      assert n != 1;
      assert plan[1].start == second && plan[1].start <= plan[1].end;
      var third := StartAt(minID, size, 2);
      assert n > 2 ==> plan[2].start == third;
      DownwardChunk(minID, maxID, size, 1);
      assert false;
    }
  }

  /** What a caller can check beforehand. */
  predicate PlanFits(minID: int, maxID: int, size: int)
    requires minID <= maxID
  {
    if size > 0 then FitsInt64(minID, maxID, size) else WrapsBeyond(minID, maxID, size)
  }

  /**
   * The plan loop ends with an exact cover of the id range if and only if its additions stay in int64, or the size is
   * negative and the first of them wraps beyond the range.
   */
  lemma PlanExactIff(minID: int, maxID: int, size: int)
    requires IsInt64(minID) && IsInt64(maxID) && minID <= maxID && IsInt64(size)
    ensures HasExactPlan(minID, maxID, size) <==> PlanFits(minID, maxID, size)
  {
    if PlanFits(minID, maxID, size) {
      var n := PlanEnds(minID, maxID, size);
    } else if size > 0 {
      var last := LastExists(minID, maxID, size);
      forall n: nat | StopsAfter(minID, maxID, size, n)
        ensures !ExactCover(PlanAfter(minID, maxID, size, n), minID, maxID)
      {
        OverflowGivesNoExactPlan(minID, maxID, size, last, n);
      }
    } else {
      forall n: nat | StopsAfter(minID, maxID, size, n)
        ensures !ExactCover(PlanAfter(minID, maxID, size, n), minID, maxID)
      {
        DownwardGivesNoExactPlan(minID, maxID, size, n);
      }
    }
  }

  /** The rounds of a loop whose plan is exact. */
  lemma PlanEnds(minID: int, maxID: int, size: int) returns (n: nat)
    requires IsInt64(minID) && IsInt64(maxID) && minID <= maxID && IsInt64(size) && PlanFits(minID, maxID, size)
    ensures StopsAfter(minID, maxID, size, n) && ExactCover(PlanAfter(minID, maxID, size, n), minID, maxID)
    ensures n <= maxID - minID + 1
  {
    if size > 0 {
      n := FitsGivesExact(minID, maxID, size);
    } else {
      n := 1;
      WrapsGivesExact(minID, maxID, size);
    }
  }

  /** An input on which the plan goes wrong: a table whose last id is the largest int64. */
  lemma OverflowExample()
    ensures !HasExactPlan(INT64_MAX - 2, INT64_MAX, 2)
  {
    PlanExactIff(INT64_MAX - 2, INT64_MAX, 2);
  }

  // ---------- What an exact cover is good for ----------

  lemma {:induction false} CoverFrom(plan: seq<Chunk>, minID: int, maxID: int, id: int, i: nat) returns (k: nat)
    requires ExactCover(plan, minID, maxID)
    requires i < |plan| && plan[i].start <= id <= maxID
    ensures k < |plan| && plan[k].Has(id)
    decreases |plan| - i
  {
    if id <= plan[i].end {
      k := i;
    } else {
      k := CoverFrom(plan, minID, maxID, id, i + 1);
    }
  }

  lemma {:induction false} CoverOrdered(plan: seq<Chunk>, minID: int, maxID: int, i: nat, j: nat)
    requires ExactCover(plan, minID, maxID) && i < j < |plan|
    ensures plan[i].end < plan[j].start
  {
    if i + 1 < j {
      CoverOrdered(plan, minID, maxID, i, j - 1);
    }
  }

  /** Every id of the range lies in exactly one chunk, and no other id lies in any. */
  lemma CoverIsPartition(plan: seq<Chunk>, minID: int, maxID: int, id: int)
    requires ExactCover(plan, minID, maxID)
    ensures minID <= id <= maxID <==> exists k :: 0 <= k < |plan| && plan[k].Has(id)
    ensures forall i, j :: 0 <= i < |plan| && 0 <= j < |plan| && plan[i].Has(id) && plan[j].Has(id) ==> i == j
  {
    if minID <= id <= maxID {
      var k := CoverFrom(plan, minID, maxID, id, 0);
    }
    forall i, j | 0 <= i < j < |plan| ensures !(plan[i].Has(id) && plan[j].Has(id)) {
      CoverOrdered(plan, minID, maxID, i, j);
    }
    forall k | 0 <= k < |plan| && plan[k].Has(id) ensures minID <= id <= maxID {
      if k > 0 { CoverOrdered(plan, minID, maxID, 0, k); }
      if k < |plan| - 1 { CoverOrdered(plan, minID, maxID, k, |plan| - 1); }
    }
  }

  /** `Running` is a loop that has not ended after the rounds that were watched. */
  datatype Plan = Planned(chunks: seq<Chunk>) | Running(chunks: seq<Chunk>) | DivisionByZero

  /**
   * createChunkPlan for a table of `total` rows with ids from `minID` to `maxID`, watched for so many rounds of its loop,
   * which for some inputs never ends. The plan is exact if and only if the inputs fit.
   */
  method CreateChunkPlan(total: nat, minID: int, maxID: int, configured: int, rounds: nat) returns (plan: Plan)
    requires IsInt64(total) && IsInt64(configured)
    requires total > 0 ==> IsInt64(minID) && IsInt64(maxID) && minID <= maxID
    ensures total == 0 ==> plan == Planned([])
    ensures plan.DivisionByZero? <==> total > 0 && configured == 0
    ensures total > 0 && configured != 0 ==>
      var size := if configured > 0 && total >= 1001 * configured then total / 1000 else configured;
      && plan.chunks == PlanAfter(minID, maxID, size, |plan.chunks|)
      && (plan.Planned? ==> (ExactCover(plan.chunks, minID, maxID) <==> PlanFits(minID, maxID, size)))
      && (plan.Running? ==> |plan.chunks| == rounds)
      && (PlanFits(minID, maxID, size) && rounds > maxID - minID ==> plan.Planned?)
  {
    hide *;
    if total == 0 { return Planned([]); }
    if configured == 0 { return DivisionByZero; }
    ghost var size := ChunkSize(total, configured);
    SizeIsInt64(total, configured);
    ChunkSizeIs(total, configured);
    plan := PlanLoop(minID, maxID, ChunkSize(total, configured), rounds);
    if PlanFits(minID, maxID, size) {
      var n := PlanEnds(minID, maxID, size);
      EndsOnce(minID, maxID, size, n, |plan.chunks|, plan.Planned?);
    } else if plan.Planned? && ExactCover(plan.chunks, minID, maxID) {
      PlanExactIff(minID, maxID, size);
      ExactExists(minID, maxID, size, |plan.chunks|);
    }
  }

  /** Beyond 1000 chunks of the configured size, the size is a thousandth of the rows. */
  lemma ChunkSizeIs(total: nat, configured: int)
    requires configured != 0
    ensures ChunkSize(total, configured) == if configured > 0 && total >= 1001 * configured then total / 1000 else configured
  {
    if configured > 0 && total >= 1001 * configured { DivisionAtLeast(total, configured, 1001); }
    if configured > 0 && total < 1001 * configured { DivisionBelow(total, configured, 1001); }
  }

  lemma DivisionAtLeast(n: nat, d: nat, q: nat)
    requires d > 0 && n >= q * d
    ensures n / d >= q
  {
    assert n < (n / d + 1) * d;
    if n / d + 1 <= q { OrderOfProducts(n / d + 1, q, d); }
  }

  lemma DivisionBelow(n: nat, d: nat, q: nat)
    requires d > 0 && n < q * d
    ensures n / d < q
  {
    assert n / d * d <= n;
    if q <= n / d { OrderOfProducts(q, n / d, d); }
  }

  lemma OrderOfProducts(a: int, b: int, d: nat)
    requires a <= b
    ensures a * d <= b * d
  {
    assert (b - a) * d >= 0;
  }

  lemma SizeIsInt64(total: nat, configured: int)
    requires IsInt64(total) && IsInt64(configured) && configured != 0
    ensures IsInt64(ChunkSize(total, configured))
  {
  }

  lemma ExactExists(minID: int, maxID: int, size: int, n: nat)
    requires StopsAfter(minID, maxID, size, n) && ExactCover(PlanAfter(minID, maxID, size, n), minID, maxID)
    ensures HasExactPlan(minID, maxID, size)
  {
  }

  /** A loop that stops after n rounds has not stopped before, and is over if it has made k of them and stopped. */
  lemma EndsOnce(minID: int, maxID: int, size: int, n: nat, k: nat, stopped: bool)
    requires StopsAfter(minID, maxID, size, n)
    requires if stopped then StopsAfter(minID, maxID, size, k) else GoesOn(minID, maxID, size, k)
    ensures if stopped then k == n else k < n
  {
  }

  /** The loop makes more than k rounds. */
  ghost predicate GoesOn(minID: int, maxID: int, size: int, k: nat) {
    forall j: nat :: j <= k ==> StartAt(minID, size, j) <= maxID
  }

  /** One round of the loop, as seen from its variables. */
  lemma LoopRound(minID: int, maxID: int, size: int, k: nat)
    requires GoesOn(minID, maxID, size, k)
    ensures StartAt(minID, size, k + 1) == Wrap(StartAt(minID, size, k) + size)
    ensures PlanAfter(minID, maxID, size, k + 1) == PlanAfter(minID, maxID, size, k)
      + [Chunk(k, StartAt(minID, size, k), Min(Wrap(StartAt(minID, size, k) + size - 1), maxID))]
    ensures if StartAt(minID, size, k + 1) <= maxID then GoesOn(minID, maxID, size, k + 1)
      else StopsAfter(minID, maxID, size, k + 1)
  {
  }

  method PlanLoop(minID: int, maxID: int, size: int, rounds: nat) returns (plan: Plan)
    requires minID <= maxID
    ensures !plan.DivisionByZero? && plan.chunks == PlanAfter(minID, maxID, size, |plan.chunks|)
    ensures if plan.Planned? then StopsAfter(minID, maxID, size, |plan.chunks|)
      else |plan.chunks| == rounds && GoesOn(minID, maxID, size, rounds)
  {
    assert PlanAfter(minID, maxID, size, 0) == [] && StartAt(minID, size, 0) == minID;
    assert GoesOn(minID, maxID, size, 0);
    hide *;
    var chunks: seq<Chunk> := [];
    var chunkID: nat := 0;
    var startID := minID;
    while startID <= maxID
      invariant chunkID == |chunks| <= rounds
      invariant startID == StartAt(minID, size, chunkID)
      invariant chunks == PlanAfter(minID, maxID, size, chunkID)
      invariant if startID <= maxID then GoesOn(minID, maxID, size, chunkID) else StopsAfter(minID, maxID, size, chunkID)
      decreases rounds - chunkID
    {
      if chunkID == rounds { return Running(chunks); }
      LoopRound(minID, maxID, size, chunkID);
      var endID := Min(Wrap(startID + size - 1), maxID);
      chunks := chunks + [Chunk(chunkID, startID, endID)];
      startID := Wrap(startID + size);
      chunkID := chunkID + 1;
    }
    return Planned(chunks);
  }
}
