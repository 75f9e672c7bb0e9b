/** Go's integers of fixed width: what an operation stores when its mathematical result does not fit. */
module GoInt {

  const INT64_MIN: int := -0x8000_0000_0000_0000
  const INT64_MAX: int := 0x7FFF_FFFF_FFFF_FFFF
  const TWO_TO_THE_64: int := 0x1_0000_0000_0000_0000

  const INT32_MIN: int := -0x8000_0000
  const INT32_MAX: int := 0x7FFF_FFFF
  const TWO_TO_THE_32: int := 0x1_0000_0000

  predicate IsInt64(x: int) {
    INT64_MIN <= x <= INT64_MAX
  }

  predicate IsUint64(x: int) {
    0 <= x < TWO_TO_THE_64
  }

  predicate IsInt32(x: int) {
    INT32_MIN <= x <= INT32_MAX
  }

  /** The int64 that Go stores when an operation's mathematical result is `x`. */
  function Wrap(x: int): int {
    (x - INT64_MIN) % TWO_TO_THE_64 + INT64_MIN
  }

  /** The int32 that Go stores. */
  function Wrap32(x: int): int {
    (x - INT32_MIN) % TWO_TO_THE_32 + INT32_MIN
  }

  /** What the conversion of a uint64 to an int64 gives: itself, or a negative number. */
  lemma ConversionIs(x: int)
    requires IsUint64(x)
    ensures Wrap(x) == if x <= INT64_MAX then x else x - TWO_TO_THE_64
  {
  }

  lemma Wrap32Is(x: int)
    ensures IsInt32(Wrap32(x)) && (IsInt32(x) ==> Wrap32(x) == x)
    ensures INT32_MAX < x <= INT32_MAX + TWO_TO_THE_32 ==> Wrap32(x) == x - TWO_TO_THE_32
  {
  }

  /** Wrapping between two operations makes no difference to the result. */
  lemma Wrap32Again(x: int, y: int)
    ensures Wrap32(Wrap32(x) - y) == Wrap32(x - y)
  {
  }

  /** The rounds of a loop over `range n + 1`: none if the addition wraps or n is negative. */
  function Rounds(n: int): nat {
    if Wrap(n + 1) > 0 then Wrap(n + 1) else 0
  }

  /** So the loop runs at all exactly for these values, and then n + 1 times. */
  lemma RoundsIs(n: int)
    requires IsInt64(n)
    ensures Rounds(n) == if 0 <= n < INT64_MAX then n + 1 else 0
  {
    if n == INT64_MAX { assert Wrap(n + 1) == INT64_MIN; }
  }
}
