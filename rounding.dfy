/**
 * `parseFloat(x.toFixed(2))` on exact reals: the nearest multiple of 1/100,
 * a tie going away from zero (toFixed rounds the magnitude and then
 * restores the sign).
 */
module Rounding {

  /** `x` has at most two decimal places. */
  predicate IsCents(x: real) {
    (100.0 * x).Floor as real == 100.0 * x
  }

  /** The number of hundredths that `toFixed(2)` keeps. */
  function Cents(x: real): (n: int)
    ensures x >= 0.0 ==> n as real - 0.5 <= 100.0 * x < n as real + 0.5
    ensures x < 0.0 ==> n as real - 0.5 < 100.0 * x <= n as real + 0.5
  {
    if x >= 0.0 then (100.0 * x + 0.5).Floor else -((0.5 - 100.0 * x).Floor)
  }

  /** `parseFloat(x.toFixed(2))`. */
  function RoundTo2(x: real): (r: real)
    ensures IsCents(r)
    ensures -0.005 <= r - x <= 0.005
    ensures x >= 0.0 ==> r >= 0.0
    ensures IsCents(x) ==> r == x
  {
    CentsOfCents(x);
    Cents(x) as real / 100.0
  }

  /** A value that already has two decimals keeps its hundredths. */
  lemma CentsOfCents(x: real)
    ensures IsCents(x) ==> Cents(x) == (100.0 * x).Floor
  {
    if IsCents(x) {
      var m := (100.0 * x).Floor;
      var n := Cents(x);
      assert n - 1 < m < n + 1;
    }
  }

  /**
   * The rounding is determined by the interval: the only two-decimal value
   * `c` with `c - 0.005 <= x < c + 0.005` (for non-negative `x`) is the
   * rounded one, so ties go up.
   */
  lemma RoundTo2Unique(x: real, c: real)
    requires x >= 0.0 && IsCents(c)
    requires c - 0.005 <= x < c + 0.005
    ensures RoundTo2(x) == c
  {
    var m := (100.0 * c).Floor;
    var n := Cents(x);
    assert m as real == 100.0 * c;
    assert m as real - 0.5 <= 100.0 * x < m as real + 0.5;
    assert n - 1 < m < n + 1;
  }

  /** Rounding a value twice is rounding it once. */
  lemma RoundTo2Idempotent(x: real)
    ensures RoundTo2(RoundTo2(x)) == RoundTo2(x)
  {
  }

  /** Rounding is sign-symmetric: a tie on a negative value goes down. */
  lemma RoundTo2Negate(x: real)
    ensures RoundTo2(-x) == -RoundTo2(x)
  {
  }
}
