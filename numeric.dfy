/**
 * Arithmetic shared by every variant of the guideline engine: JavaScript's
 * Math.round, Math.abs, Math.min and Math.max over exact reals, and the
 * tolerance test `isInRange` that decides whether two coordinates line up.
 */
module Numeric {

  /** Math.round on a real: the nearest integer, halves rounded up. */
  function Round(x: real): (r: int)
    ensures x - 0.5 < r as real <= x + 0.5
  {
    (x + 0.5).Floor
  }

  /** Shifting by a whole number commutes with rounding. */
  lemma RoundShift(x: real, n: int)
    ensures Round(x + n as real) == Round(x) + n
  {
    var k := Round(x) + n;
    assert k as real <= x + n as real + 0.5 < k as real + 1.0;
  }

  /** A coordinate that is already an integer rounds to itself. */
  lemma RoundOfInteger(n: int)
    ensures Round(n as real) == n
  {
  }

  function Abs(n: int): (r: nat)
    ensures r == n || r == -n
  {
    if n < 0 then -n else n
  }

  function AbsReal(x: real): (r: real)
    ensures r >= 0.0 && (r == x || r == -x)
  {
    if x < 0.0 then -x else x
  }

  function Min(a: real, b: real): (r: real)
    ensures r <= a && r <= b && (r == a || r == b)
  {
    if a <= b then a else b
  }

  function Max(a: real, b: real): (r: real)
    ensures r >= a && r >= b && (r == a || r == b)
  {
    if a >= b then a else b
  }

  function Min3(a: real, b: real, c: real): (r: real)
    ensures r <= a && r <= b && r <= c && (r == a || r == b || r == c)
  {
    Min(Min(a, b), c)
  }

  function Max3(a: real, b: real, c: real): (r: real)
    ensures r >= a && r >= b && r >= c && (r == a || r == b || r == c)
  {
    Max(Max(a, b), c)
  }

  /**
   * The tolerance test: both coordinates are rounded, and they line up when
   * the rounded values are at most `margin` apart. Stated here as "the
   * rounded first value lies in the window of half-width margin around the
   * rounded second one".
   */
  function IsInRange(value1: real, value2: real, margin: real): (r: bool)
    ensures r <==> Round(value2) as real - margin <= Round(value1) as real <= Round(value2) as real + margin
  {
    Abs(Round(value1) - Round(value2)) as real <= margin
  }

  /** The tolerance test does not depend on the order of its operands. */
  lemma IsInRangeSymmetric(value1: real, value2: real, margin: real)
    ensures IsInRange(value1, value2, margin) == IsInRange(value2, value1, margin)
  {
  }

  /** Coordinates that round to the same integer are always in range for a non-negative margin. */
  lemma IsInRangeReflexive(value1: real, value2: real, margin: real)
    requires margin >= 0.0 && Round(value1) == Round(value2)
    ensures IsInRange(value1, value2, margin)
  {
  }
}
