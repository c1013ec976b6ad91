/** Python's int() on numbers, used by the energy pools and the
    percentage experience amounts. */
module Truncation {
  /** int(x): the integer part of x, rounding toward zero. */
  function Trunc(x: real): int
  {
    if x >= 0.0 then x.Floor else -((-x).Floor)
  }

  /** int(x) is within one of x, on the side of zero. */
  lemma TruncBounds(x: real)
    ensures x >= 0.0 ==> 0 <= Trunc(x) && Trunc(x) as real <= x < Trunc(x) as real + 1.0
    ensures x < 0.0 ==> Trunc(x) <= 0 && Trunc(x) as real - 1.0 < x <= Trunc(x) as real
  {
  }

  /** A whole number is its own integer part. */
  lemma TruncOfInt(n: int)
    ensures Trunc(n as real) == n
  {
    TruncBounds(n as real);
  }

  /** Truncation keeps a value lying between two integers between them. */
  lemma TruncBetween(x: real, lo: int, hi: int)
    requires lo as real <= x <= hi as real
    ensures lo <= Trunc(x) <= hi
  {
    TruncBounds(x);
  }
}
