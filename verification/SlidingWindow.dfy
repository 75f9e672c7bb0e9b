/**
 * The window of the last results that the advanced circuit breaker and the fallback manager keep: an array that is
 * written round and round, an index and a flag. It answers as a plain list of all results would.
 */
module SlidingWindow {

  datatype Outcome = Outcome(success: bool, slow: bool)

  datatype Kind = Failures | SlowCalls

  predicate Counts(kind: Kind, o: Outcome) {
    if kind.Failures? then !o.success else o.slow
  }

  function Count(kind: Kind, s: seq<Outcome>): nat {
    if s == [] then 0 else Count(kind, s[..|s| - 1]) + if Counts(kind, s[|s| - 1]) then 1 else 0
  }

  /** The last n results. */
  function Last(history: seq<Outcome>, n: nat): seq<Outcome> {
    if |history| <= n then history else history[|history| - n..]
  }

  function Rate(kind: Kind, window: seq<Outcome>): real {
    if window == [] then 0.0 else Count(kind, window) as real / |window| as real
  }

  lemma {:induction false} CountConcat(kind: Kind, a: seq<Outcome>, b: seq<Outcome>)
    ensures Count(kind, a + b) == Count(kind, a) + Count(kind, b)
  {
    if b == [] {
      assert a + b == a;
    } else {
      assert (a + b)[..|a + b| - 1] == a + b[..|b| - 1];
      CountConcat(kind, a, b[..|b| - 1]);
    }
  }

  /**
   * What the array holds: the newest results up to the index, and after it, once the array has been filled, the older
   * ones.
   */
  ghost predicate Holds(cells: seq<Outcome>, index: nat, full: bool, history: seq<Outcome>) {
    && index < |cells| && index <= |history|
    && (if full then |history| >= |cells| else |history| == index)
    && forall k :: 0 <= k < (if full then |cells| else index) ==> cells[k] == history[PlaceOf(|cells|, index, |history|, k)]
  }

  /** Which result of the history is in cell k. */
  function PlaceOf(size: nat, index: nat, total: nat, k: nat): int {
    if k < index then total - index + k else total - size + (k - index)
  }

  lemma HoldsParts(cells: seq<Outcome>, index: nat, full: bool, history: seq<Outcome>)
    requires Holds(cells, index, full, history)
    ensures var used := cells[..if full then |cells| else index];
      var older := cells[index..|used|];
      used == cells[..index] + older && Last(history, |cells|) == older + cells[..index]
  {
    if !full { assert cells[..index] == history; }
  }

  lemma HoldsLast(cells: seq<Outcome>, index: nat, full: bool, history: seq<Outcome>)
    requires Holds(cells, index, full, history)
    ensures var used := cells[..if full then |cells| else index];
      var last := Last(history, |cells|);
      && |used| == |last| && multiset(used) == multiset(last)
      && forall kind :: Count(kind, used) == Count(kind, last)
  {
    HoldsIndex(cells, index, full, history);
    HoldsParts(cells, index, full, history);
    hide Holds, Last, Count;
    var used := cells[..if full then |cells| else index];
    var newer, older := cells[..index], cells[index..|used|];
    forall kind ensures Count(kind, used) == Count(kind, Last(history, |cells|)) {
      CountConcat(kind, newer, older);
      CountConcat(kind, older, newer);
    }
  }

  function Next(index: nat, size: nat): nat
    requires size > 0
  {
    (index + 1) % size
  }

  lemma NextIsRound(index: nat, size: nat)
    requires index < size
    ensures Next(index, size) == if index + 1 < size then index + 1 else 0
  {
  }

  lemma HoldsIndex(cells: seq<Outcome>, index: nat, full: bool, history: seq<Outcome>)
    requires Holds(cells, index, full, history)
    ensures index < |cells| && (!full ==> |history| == index)
  {
  }

  lemma HoldsNext(cells: seq<Outcome>, index: nat, full: bool, history: seq<Outcome>, o: Outcome)
    requires Holds(cells, index, full, history)
    ensures var next := Next(index, |cells|);
      Holds(cells[index := o], next, full || next == 0, history + [o])
  {
    NextIsRound(index, |cells|);
    hide Next;
  }

  class RequestWindow {
    var cells: array<Outcome>
    var index: nat
    var full: bool
    ghost var history: seq<Outcome>

    ghost predicate Valid()
      reads this, cells
    {
      Holds(cells[..], index, full, history)
    }

    /** `size` is positive because the constructors of both owners replace zero by 100. */
    constructor (size: nat)
      requires size > 0
      ensures Valid() && fresh(cells) && cells.Length == size && history == []
    {
      cells := new Outcome[size](_ => Outcome(false, false));
      index, full, history := 0, false, [];
    }

    method Add(o: Outcome)
      requires Valid()
      modifies this, cells
      ensures Valid() && cells == old(cells) && history == old(history) + [o]
    {
      hide Holds, Next;
      HoldsIndex(cells[..], index, full, history);
      HoldsNext(cells[..], index, full, history, o);
      var next := Next(index, cells.Length);
      ghost var filled := cells[..][index := o];
      cells[index] := o;
      assert cells[..] == filled;
      index, full, history := next, full || next == 0, history + [o];
    }

    method EffectiveSize() returns (n: nat)
      requires Valid()
      ensures n == |Last(history, cells.Length)| && n <= cells.Length
    {
      HoldsLast(cells[..], index, full, history);
      n := if full then cells.Length else index;
    }

    /** The loops of calculateFailureRate, calculateSlowCallRate and calculateCurrentErrorRate. */
    method CountIn(kind: Kind, n: nat) returns (count: nat)
      requires n <= cells.Length
      ensures count == Count(kind, cells[..n])
    {
      count := 0;
      for i := 0 to n
        invariant count == Count(kind, cells[..i])
      {
        assert cells[..i + 1][..i] == cells[..i];
        if Counts(kind, cells[i]) {
          count := count + 1;
        }
      }
    }

    lemma UsedCounts(kind: Kind, n: nat)
      requires Valid() && n == |Last(history, cells.Length)| && n <= cells.Length
      ensures Count(kind, cells[..n]) == Count(kind, Last(history, cells.Length))
    {
      HoldsLast(cells[..], index, full, history);
      hide Last, Count;
      assert cells[..][..n] == cells[..n];
    }

    method CalculateRate(kind: Kind) returns (rate: real)
      requires Valid()
      ensures rate == Rate(kind, Last(history, cells.Length))
    {
      hide Holds, Last, Count;
      var n := EffectiveSize();
      if n == 0 { return 0.0; }
      UsedCounts(kind, n);
      var count := CountIn(kind, n);
      return count as real / n as real;
    }

    method Clear()
      requires Valid()
      modifies this
      ensures Valid() && fresh(cells) && cells.Length == old(cells.Length) && history == []
    {
      cells := new Outcome[cells.Length](_ => Outcome(false, false));
      index, full, history := 0, false, [];
    }
  }
}
