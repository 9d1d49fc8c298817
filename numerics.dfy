/**
 * Integer renderings of the JavaScript number operations the application uses:
 * Math.max / Math.min, Math.round of an exact quotient, Math.floor of a quotient
 * and the truncating remainder operator `%`.
 */
module Numerics {

  function Max(a: int, b: int): (r: int)
    ensures r >= a && r >= b && (r == a || r == b)
  {
    if a >= b then a else b
  }

  function Min(a: int, b: int): (r: int)
    ensures r <= a && r <= b && (r == a || r == b)
  {
    if a <= b then a else b
  }

  /** Math.round(num / den) for an exact quotient: the nearest integer, halves rounded up. */
  function RoundHalfUp(num: int, den: int): (r: int)
    requires den > 0
    ensures 2 * den * r <= 2 * num + den < 2 * den * (r + 1)
  {
    var q := (2 * num + den) / (2 * den);
    assert 2 * num + den == (2 * den) * q + (2 * num + den) % (2 * den);
    q
  }

  /** Math.floor(a / b) for a positive divisor. */
  function FloorDiv(a: int, b: int): (q: int)
    requires b > 0
    ensures b * q <= a < b * (q + 1)
  {
    var q := a / b;
    assert a == b * q + a % b;
    q
  }

  /** JavaScript's `a % b`: the remainder of the division truncated toward zero, with the sign of `a`. */
  function JsRem(a: int, b: int): (r: int)
    requires b > 0
    ensures -b < r < b
    ensures a >= 0 ==> 0 <= r && r == a - b * FloorDiv(a, b)
    ensures a < 0 ==> r <= 0 && r == -((-a) - b * FloorDiv(-a, b))
  {
    if a >= 0 then a % b else -((-a) % b)
  }

  /** Multiplying by a positive factor preserves strict order (the step the solver does not take alone). */
  lemma MulStrictMonotone(k: int, x: int, y: int)
    requires k > 0 && k * x < k * y
    ensures x < y
  {
  }

  /** The rounded quotient stays within any integer bounds the exact quotient stays within. */
  lemma {:induction false} RoundHalfUpWithin(num: int, den: int, lo: int, hi: int)
    requires den > 0
    requires lo * den <= num <= hi * den
    ensures lo <= RoundHalfUp(num, den) <= hi
  {
    var r := RoundHalfUp(num, den);
    assert 2 * den * r < 2 * den * (hi + 1) by {
      assert 2 * num + den <= 2 * (hi * den) + den;
      assert 2 * (hi * den) + den < 2 * den * (hi + 1);
    }
    MulStrictMonotone(2 * den, r, hi + 1);
    assert 2 * den * lo < 2 * den * (r + 1) by {
      assert 2 * (lo * den) + den <= 2 * num + den;
      assert 2 * den * lo < 2 * (lo * den) + den;
    }
    MulStrictMonotone(2 * den, lo, r + 1);
  }

  /** A larger numerator never rounds to a smaller integer. */
  lemma {:induction false} RoundHalfUpMonotone(a: int, b: int, den: int)
    requires den > 0 && a <= b
    ensures RoundHalfUp(a, den) <= RoundHalfUp(b, den)
  {
    var ra, rb := RoundHalfUp(a, den), RoundHalfUp(b, den);
    assert 2 * den * ra < 2 * den * (rb + 1) by {
      assert 2 * den * ra <= 2 * a + den <= 2 * b + den;
    }
    MulStrictMonotone(2 * den, ra, rb + 1);
  }
}
