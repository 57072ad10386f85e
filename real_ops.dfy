/** `Math.min`, `Math.max` and the min-of-max clamp used throughout the calculator, on reals. */
module RealOps {

  function Min(a: real, b: real): (r: real)
    ensures r <= a && r <= b
    ensures r == a || r == b
  {
    if a <= b then a else b
  }

  function Max(a: real, b: real): (r: real)
    ensures a <= r && b <= r
    ensures r == a || r == b
  {
    if a >= b then a else b
  }

  /** `Math.min(Math.max(x, lo), hi)`: x forced into [lo, hi] when lo <= hi. */
  function Clamp(x: real, lo: real, hi: real): (r: real)
    ensures lo <= hi ==> lo <= r <= hi
    ensures lo <= x <= hi ==> r == x
    ensures x <= lo <= hi ==> r == lo
    ensures lo <= hi <= x ==> r == hi
  {
    Min(Max(x, lo), hi)
  }

  /** Clamping never moves two points further apart, and keeps their order. */
  lemma ClampMonotone(x: real, y: real, lo: real, hi: real)
    requires lo <= hi
    requires x <= y
    ensures 0.0 <= Clamp(y, lo, hi) - Clamp(x, lo, hi) <= y - x
  {
  }

  /** Scaling a non-negative quantity by a smaller factor gives a smaller product. */
  lemma MulLeFactor(a: real, r: real, cap: real)
    requires 0.0 <= a
    requires r <= cap
    ensures a * r <= a * cap
  {
    assert a * cap - a * r == a * (cap - r);
  }

  lemma MulNonNegative(a: real, b: real)
    requires 0.0 <= a && 0.0 <= b
    ensures 0.0 <= a * b
  {
  }
}
