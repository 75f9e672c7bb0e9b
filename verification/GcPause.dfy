/**
 * The longest new garbage-collection pause: the runtime keeps the last 256 pauses in a ring and the number of
 * collections in 32 bits, and `newGCPauseMax` looks at the part of the ring that is new.
 */
module GcPause {

  const RING := 256
  const WORD := 0x1_0000_0000

  /** What 32 bits keep of a number. */
  function Low(n: int): nat {
    n % WORD
  }

  /**
   * The statistics after the collections whose pauses are `log`: their number modulo 2^32, and in the ring each of the
   * last 256 pauses at its place.
   */
  datatype MemStats = MemStats(numGC: nat, pauseNs: seq<nat>)

  ghost predicate Reports(m: MemStats, log: seq<nat>) {
    && m.numGC == Low(|log|) && |m.pauseNs| == RING
    && forall k :: 0 <= k < |log| && |log| - RING <= k ==> m.pauseNs[k % RING] == log[k]
  }

  function Min(a: nat, b: nat): nat {
    if a <= b then a else b
  }

  /** The largest of the last n pauses, or zero. */
  function LastMax(log: seq<nat>, n: nat): nat
    requires n <= |log|
  {
    if n == 0 then 0
    else
      var rest, x := LastMax(log, n - 1), log[|log| - n];
      if x > rest then x else rest
  }

  /** What LastMax is: no smaller than any of those pauses, and one of them if there are any. */
  lemma {:induction false} LastMaxIs(log: seq<nat>, n: nat)
    requires n <= |log|
    ensures forall k :: |log| - n <= k < |log| ==> log[k] <= LastMax(log, n)
    ensures n > 0 ==> exists k :: |log| - n <= k < |log| && log[k] == LastMax(log, n)
    ensures n == 0 ==> LastMax(log, n) == 0
  {
    if n > 1 {
      LastMaxIs(log, n - 1);
    }
    if n > 0 { assert log[|log| - n] <= LastMax(log, n); }
  }

  /** How many entries of the ring count as new: unsigned subtraction of the last count from the current one. */
  function NewEntries(before: nat, now: nat): nat {
    Min(Low(now - before), RING)
  }

  /** The wrapped counters give the number of new collections modulo 2^32. */
  lemma WrappedDifference(before: nat, now: nat)
    requires before <= now
    ensures Low(Low(now) - Low(before)) == Low(now - before)
  {
  }

  /** The index of the loop, computed in 32 bits. */
  function Index(numGC: nat, i: nat): nat {
    Low(Low(numGC - i) + 255) % RING
  }

  /** The index that the loop computes is the place of the i-th newest pause. */
  lemma RingIndex(count: nat, i: nat)
    requires i < count && i < RING
    ensures Index(Low(count), i) == (count - 1 - i) % RING
  {
    hide Low;
    LowOfLow(count, i);
    LowModRing(count - i);
    LowModRing(Low(count - i) + 255);
    SameRest(Low(count - i), count - i);
  }

  lemma LowOfLow(a: nat, i: nat)
    ensures Low(Low(a) - i) == Low(a - i)
  {
  }

  lemma LowModRing(n: int)
    ensures Low(n) % RING == n % RING
  {
    assert WORD == RING * 0x100_0000;
  }

  lemma SameRest(a: int, b: int)
    requires a % RING == b % RING
    ensures (a + 255) % RING == (b - 1) % RING
  {
  }

  lemma EntryIsNewest(m: MemStats, log: seq<nat>, i: nat)
    requires Reports(m, log) && i < |log| && i < RING
    ensures Index(m.numGC, i) < |m.pauseNs| && m.pauseNs[Index(m.numGC, i)] == log[|log| - 1 - i]
  {
    RingIndex(|log|, i);
    hide Index;
    assert m.pauseNs[(|log| - 1 - i) % RING] == log[|log| - 1 - i];
  }

  /**
   * The result covers all new pauses that the ring still holds if and only if fewer than 2^32 collections are new, or
   * their number has wrapped to at least the size of the ring.
   */
  lemma CoversIff(before: nat, now: nat)
    requires before <= now
    ensures NewEntries(Low(before), Low(now)) == Min(now - before, RING) <==>
            now - before < WORD || Low(now - before) >= RING
  {
    WrappedDifference(before, now);
  }

  class Monitor {
    var lastNumGC: nat

    /** `seen` is the number of collections at the last call, and `log` the pauses of all until now. */
    method NewGCPauseMax(m: MemStats, ghost seen: nat, ghost log: seq<nat>) returns (pause: nat)
      requires Reports(m, log) && seen <= |log| && lastNumGC == Low(seen)
      modifies this
      ensures lastNumGC == Low(|log|)
      ensures NewEntries(Low(seen), Low(|log|)) <= |log|
      ensures pause == LastMax(log, NewEntries(Low(seen), Low(|log|)))
      ensures |log| - seen < WORD ==> pause == LastMax(log, Min(|log| - seen, RING))
    {
      CoversIff(seen, |log|);
      var newGCs := NewEntries(lastNumGC, m.numGC);
      assert m.numGC == Low(|log|) && |m.pauseNs| == RING;
      hide NewEntries, Index, Reports, Low;
      lastNumGC := m.numGC;
      pause := 0;
      for i := 0 to newGCs
        invariant pause == LastMax(log, i) && lastNumGC == Low(|log|)
      {
        EntryIsNewest(m, log, i);
        var entry := m.pauseNs[Index(m.numGC, i)];
        if entry > pause { pause := entry; }
      }
    }
  }
}
