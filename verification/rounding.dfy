/**
  Rounding of exact reals to integers, as Python 3's built-in `round` does it
  for a single argument: to the nearest integer, and to the even one of the
  two nearest integers when the value lies exactly half-way between them.
 */
module Rounding {

  /** True when `x` lies exactly half-way between two consecutive integers. */
  predicate IsTie(x: real, n: int) {
    n as real - x == 0.5 || x - n as real == 0.5
  }

  /** Round half to even: the floor of `x + 1/2`, except that at an exact
      tie whose upper neighbour is odd the lower neighbour is taken. */
  function RoundHalfEven(x: real): (n: int)
  {
    var n := (x + 0.5).Floor;
    if n as real == x + 0.5 && n % 2 != 0 then n - 1 else n
  }

  /** The rounded value lies within one half of `x`, and at a tie it is
      the even neighbour. */
  lemma RoundHalfEvenNearest(x: real)
    ensures x - 0.5 <= RoundHalfEven(x) as real <= x + 0.5
    ensures IsTie(x, RoundHalfEven(x)) ==> RoundHalfEven(x) % 2 == 0
  {
  }

  /** The rounded value is the only integer with the two properties above:
      any integer strictly nearer than one half, or exactly one half away
      and even, is the result of `RoundHalfEven`. */
  lemma RoundHalfEvenIsUnique(x: real, m: int)
    requires x - 0.5 <= m as real <= x + 0.5
    requires IsTie(x, m) ==> m % 2 == 0
    ensures m == RoundHalfEven(x)
  {
  }

  /** Rounding never produces a negative count from a non-negative value. */
  lemma RoundHalfEvenNonNegative(x: real)
    requires x >= 0.0
    ensures RoundHalfEven(x) >= 0
  {
    RoundHalfEvenNearest(x);
  }

  /** Whole numbers are left unchanged. */
  lemma RoundHalfEvenOfInteger(k: int)
    ensures RoundHalfEven(k as real) == k
  {
    RoundHalfEvenIsUnique(k as real, k);
  }
}
