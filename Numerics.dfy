/**
 * The numeric vocabulary the clock relies on: the constant PI, min/max,
 * Kotlin's coerceIn/coerceAtLeast, and
 * the trigonometric functions, which are taken as an oracle.
 *
 * Floating-point numbers are modelled as mathematical reals throughout.
 */
module Numerics {

  /** Kotlin's kotlin.math.PI, as a decimal. */
  const PI: real := 3.141592653589793

  function Min(a: real, b: real): (r: real)
    ensures r <= a && r <= b
    ensures r == a || r == b
  {
    if a <= b then a else b
  }

  function Max(a: real, b: real): (r: real)
    ensures a <= r && b <= r
    ensures r == a || r == b
  {
    if a >= b then a else b
  }

  /** Kotlin's `coerceIn(lo, hi)`. */
  function CoerceIn(x: real, lo: real, hi: real): (r: real)
    requires lo <= hi
    ensures lo <= r <= hi
    ensures lo <= x <= hi ==> r == x
    ensures x < lo ==> r == lo
    ensures hi < x ==> r == hi
  {
    if x < lo then lo else if x > hi then hi else x
  }

  /** Kotlin's `coerceAtLeast(lo)`. */
  function CoerceAtLeast(x: real, lo: real): (r: real)
    ensures lo <= r
    ensures lo <= x ==> r == x
    ensures x < lo ==> r == lo
  {
    if x < lo then lo else x
  }

  /** `true` when `v` lies between `a` and `b`, whichever of the two is smaller. */
  predicate Between(v: real, a: real, b: real) {
    (a <= v <= b) || (b <= v <= a)
  }

  /**
   * kotlin.math.cos, sin and hypot are foreign code: the model receives them
   * as function values. Nothing is assumed about them except where a member
   * says so with one of the two predicates below.
   */
  datatype Trig = Trig(cos: real -> real, sin: real -> real, hypot: (real, real) -> real)

  /** The one fact the particle step needs: a distance is never negative. */
  ghost predicate HypotNonNegative(m: Trig) {
    forall x: real, y: real :: m.hypot(x, y) >= 0.0
  }

  /** cos/sin lie on the unit circle, and hypot is the Euclidean length. */
  ghost predicate Pythagorean(m: Trig) {
    && (forall a: real :: m.cos(a) * m.cos(a) + m.sin(a) * m.sin(a) == 1.0)
    && (forall x: real, y: real :: m.hypot(x, y) >= 0.0 && m.hypot(x, y) * m.hypot(x, y) == x * x + y * y)
  }

  /** Scaling a point of the unit circle by `k` lands at distance |k|. */
  lemma ScaledUnitVector(c: real, s: real, k: real)
    requires c * c + s * s == 1.0
    ensures (k * c) * (k * c) + (k * s) * (k * s) == k * k
  {
    calc {
      (k * c) * (k * c) + (k * s) * (k * s);
      k * k * (c * c + s * s);
      k * k;
    }
  }

  /** Squaring is monotone on the non-negative reals. */
  lemma SquareMonotone(a: real, b: real)
    requires 0.0 <= a <= b
    ensures a * a <= b * b
  {
    assert a * a <= a * b;
    assert a * b <= b * b;
  }
}
