/**
 * The pieces of JavaScript number arithmetic the dashboard relies on, over
 * unbounded reals: `Math.round`, `Math.min`/`Math.max` and the percentage
 * expression `Math.round(part / whole * 100)` that every panel uses.
 */
module JsMath {

  /** `Math.round(x)`: the nearest integer, halves going toward +infinity. */
  function Round(x: real): (r: int)
    ensures x - 0.5 < r as real <= x + 0.5
  {
    (x + 0.5).Floor
  }

  function Max(a: real, b: real): (r: real)
    ensures r >= a && r >= b && (r == a || r == b)
  {
    if a >= b then a else b
  }

  function MinInt(a: int, b: int): (r: int)
    ensures r <= a && r <= b && (r == a || r == b)
  {
    if a <= b then a else b
  }

  /** `Math.round(part / whole * 100)`. */
  function Percent(part: real, whole: real): int
    requires whole != 0.0
  {
    Round(part / whole * 100.0)
  }

  /** Rounding is monotone. */
  lemma RoundMonotone(x: real, y: real)
    requires x <= y
    ensures Round(x) <= Round(y)
  {
  }

  /** A share of a whole, as a rounded percentage, lies in [0, 100]. */
  lemma PercentOfShare(part: real, whole: real)
    requires whole > 0.0 && 0.0 <= part <= whole
    ensures 0 <= Percent(part, whole) <= 100
  {
    var q := part / whole;
    assert 0.0 <= q <= 1.0 by {
      assert q * whole == part;
    }
    RoundMonotone(0.0, q * 100.0);
    RoundMonotone(q * 100.0, 100.0);
  }

  /** A non-negative quantity against a positive whole gives a non-negative percentage. */
  lemma PercentNonNegative(part: real, whole: real)
    requires whole != 0.0
    ensures whole > 0.0 && part >= 0.0 ==> Percent(part, whole) >= 0
  {
    if whole > 0.0 && part >= 0.0 {
      assert part / whole >= 0.0;
      RoundMonotone(0.0, part / whole * 100.0);
    }
  }

  /** At least the whole gives at least 100 percent. */
  lemma PercentOfMore(part: real, whole: real)
    requires whole > 0.0 && part >= whole
    ensures Percent(part, whole) >= 100
  {
    var q := part / whole;
    assert q >= 1.0 by {
      assert q * whole == part;
      assert (q - 1.0) * whole == part - whole;
    }
    RoundMonotone(100.0, q * 100.0);
    assert Round(100.0) == 100;
  }

  /** The whole of anything is 100 percent of it. */
  lemma PercentOfWhole(x: real)
    requires x != 0.0
    ensures Percent(x, x) == 100
  {
    assert x / x == 1.0;
  }
}
