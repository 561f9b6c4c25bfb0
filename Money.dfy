/**
  Monetary rounding. C# `decimal` is exact base-10 arithmetic, so amounts are
  modelled as Dafny `real`. `Decimal.Round(x, 2)` and `Math.Round(x, 2)` both
  use .NET's default midpoint rule, round-half-to-even ("banker's rounding").
*/
module Money {

  /** `n` is the integer nearest to `y`, and the even one of the two when `y` is halfway. */
  ghost predicate IsNearestEven(y: real, n: int) {
    && n as real - 0.5 <= y <= n as real + 0.5
    && (y == n as real - 0.5 || y == n as real + 0.5 ==> n % 2 == 0)
  }

  /** Rounds to an integer, ties to even. */
  function RoundHalfEven(y: real): (n: int)
    ensures IsNearestEven(y, n)
  {
    var f := y.Floor;
    var d := y - f as real;
    if d < 0.5 then f
    else if d > 0.5 then f + 1
    else if f % 2 == 0 then f
    else f + 1
  }

  /** Only one integer is nearest-with-ties-to-even, so `RoundHalfEven` is determined by its contract. */
  lemma NearestEvenUnique(y: real, n: int, m: int)
    requires IsNearestEven(y, n) && IsNearestEven(y, m)
    ensures n == m
  {
  }

  /** `x` has at most two decimal places: it is a whole number of cents. */
  predicate IsTwoDecimal(x: real) {
    (x * 100.0).Floor as real == x * 100.0
  }

  /** `Decimal.Round(x, 2)` / `Math.Round(x, 2)` with `MidpointRounding.ToEven`. */
  function Round2(x: real): (r: real)
    ensures IsTwoDecimal(r)
    ensures x - 0.005 <= r <= x + 0.005
    ensures IsNearestEven(x * 100.0, (r * 100.0).Floor)
  {
    var n := RoundHalfEven(x * 100.0);
    CentsExact(n);
    n as real / 100.0
  }

  /** A whole number of cents converts to an amount and back exactly. */
  lemma CentsExact(n: int)
    ensures (n as real / 100.0) * 100.0 == n as real
    ensures ((n as real / 100.0) * 100.0).Floor == n
  {
  }

  /** Rounding a value that already has two decimals gives it back. */
  lemma Round2OfTwoDecimal(x: real)
    requires IsTwoDecimal(x)
    ensures Round2(x) == x
  {
  }

  /** Rounding twice is rounding once. */
  lemma Round2Idempotent(x: real)
    ensures Round2(Round2(x)) == Round2(x)
  {
  }

  /** Rounding preserves order (it is monotone). */
  lemma Round2Monotone(x: real, y: real)
    requires x <= y
    ensures Round2(x) <= Round2(y)
  {
    var n, m := RoundHalfEven(x * 100.0), RoundHalfEven(y * 100.0);
    assert Round2(x) == n as real / 100.0;
    assert Round2(y) == m as real / 100.0;
  }

  /** A non-negative amount never rounds below zero. */
  lemma Round2NonNegative(x: real)
    requires x >= 0.0
    ensures Round2(x) >= 0.0
  {
  }

  /** Sums of two-decimal amounts have two decimals. */
  lemma TwoDecimalAdd(a: real, b: real)
    requires IsTwoDecimal(a) && IsTwoDecimal(b)
    ensures IsTwoDecimal(a + b)
  {
    var i, j := (a * 100.0).Floor, (b * 100.0).Floor;
    assert (a + b) * 100.0 == (i + j) as real;
  }

  /** Ties go to the even cent: 0.005 rounds to 0.00, 0.015 and 0.025 both to 0.02, 0.125 to 0.12. */
  lemma Round2TiesToEven()
    ensures Round2(0.005) == 0.0
    ensures Round2(0.015) == 0.02
    ensures Round2(0.025) == 0.02
    ensures Round2(-0.005) == 0.0
    ensures Round2(0.125) == 0.12 && Round2(-0.125) == -0.12
  {
  }
}
