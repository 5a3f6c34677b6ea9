/**
 * Scalar helpers of the toolkit (src/math/utils.ts): linear normalisation and
 * interpolation, range remapping, clamping with bounds in either order, planar
 * distance and snapping to a multiple.
 *
 * Numbers are modelled as mathematical reals. `Math.sqrt` is a foreign call:
 * every member that needs it takes it as a parameter `sqrt` that is required to
 * return the non-negative square root of any non-negative real.
 */
module Scalars {

  import opened RealFacts

  function Min(a: real, b: real): real { if a <= b then a else b }
  function Max(a: real, b: real): real { if a <= b then b else a }

  /** Where `value` sits between `min` (0) and `max` (1). */
  function Norm(value: real, min: real, max: real): (r: real)
    requires min != max
    ensures value == min ==> r == 0.0
    ensures value == max ==> r == 1.0
    ensures r * (max - min) == value - min
  {
    DivMul(value - min, max - min);
    DivSelf(max - min);
    (value - min) / (max - min)
  }

  /** The point at fraction `t` of the way from `min` to `max`. */
  function Lerp(t: real, min: real, max: real): (r: real)
    ensures t == 0.0 ==> r == min
    ensures t == 1.0 ==> r == max
    ensures r - min == t * (max - min)
  {
    (max - min) * t + min
  }

  /** Remaps `value` from the source range to the destination range (default [0, 1]). */
  function Map(value: real, sourceMin: real, sourceMax: real, destMin: real := 0.0, destMax: real := 1.0): (r: real)
    requires sourceMin != sourceMax
    ensures value == sourceMin ==> r == destMin
    ensures value == sourceMax ==> r == destMax
  {
    Lerp(Norm(value, sourceMin, sourceMax), destMin, destMax)
  }

  /** Interpolating at the normalised position gives the value back. */
  lemma LerpNormRoundTrip(value: real, min: real, max: real)
    requires min != max
    ensures Lerp(Norm(value, min, max), min, max) == value
  {
    var t := Norm(value, min, max);
    assert t * (max - min) == value - min;
  }

  /** Normalising an interpolated point gives the fraction back. */
  lemma NormLerpRoundTrip(t: real, min: real, max: real)
    requires min != max
    ensures Norm(Lerp(t, min, max), min, max) == t
  {
    var v := Lerp(t, min, max);
    var n := Norm(v, min, max);
    assert n * (max - min) == t * (max - min);
  }

  /** The default destination range of `Map` is [0, 1], so `Map` then agrees with `Norm`. */
  lemma MapDefaultIsNorm(value: real, sourceMin: real, sourceMax: real)
    requires sourceMin != sourceMax
    ensures Map(value, sourceMin, sourceMax) == Norm(value, sourceMin, sourceMax)
  {
  }

  /** `value` limited to the interval spanned by `min` and `max`, whichever is larger. */
  function Clamp(value: real, min: real, max: real): (r: real)
    ensures Min(min, max) <= r <= Max(min, max)
    ensures Min(min, max) <= value <= Max(min, max) ==> r == value
    ensures value < Min(min, max) ==> r == Min(min, max)
    ensures value > Max(min, max) ==> r == Max(min, max)
  {
    Max(Min(min, max), Min(Max(min, max), value))
  }

  /** The bound order does not matter. */
  lemma ClampSymmetric(value: real, a: real, b: real)
    ensures Clamp(value, a, b) == Clamp(value, b, a)
  {
  }

  /** Clamping twice is clamping once. */
  lemma ClampIdempotent(value: real, min: real, max: real)
    ensures Clamp(Clamp(value, min, max), min, max) == Clamp(value, min, max)
  {
  }

  /** Planar Euclidean distance between (x0, y0) and (x1, y1). */
  function Distance(x0: real, y0: real, x1: real, y1: real, sqrt: real -> real): (r: real)
    requires IsSqrt(sqrt)
    ensures IsRootOf(r, (x1 - x0) * (x1 - x0) + (y1 - y0) * (y1 - y0))
    ensures r == 0.0 <==> x0 == x1 && y0 == y1
  {
    var dx := x1 - x0;
    var dy := y1 - y0;
    SquareNonnegative(dx);
    SquareNonnegative(dy);
    RootZero(sqrt(dx * dx + dy * dy), dx * dx + dy * dy);
    if dx * dx + dy * dy == 0.0 then
      SumOfSquaresZero(dx, dy);
      sqrt(dx * dx + dy * dy)
    else
      sqrt(dx * dx + dy * dy)
  }

  /** Distance does not depend on the order of the two points. */
  lemma DistanceSymmetric(x0: real, y0: real, x1: real, y1: real, sqrt: real -> real)
    requires IsSqrt(sqrt)
    ensures Distance(x0, y0, x1, y1, sqrt) == Distance(x1, y1, x0, y0, sqrt)
  {
    assert (x1 - x0) * (x1 - x0) == (x0 - x1) * (x0 - x1);
    assert (y1 - y0) * (y1 - y0) == (y0 - y1) * (y0 - y1);
  }

  /** Truncation toward zero. */
  function Trunc(q: real): (t: int)
    ensures q >= 0.0 ==> 0 <= t && t as real <= q < t as real + 1.0
    ensures q < 0.0 ==> t <= 0 && t as real - 1.0 < q <= t as real
  {
    if q >= 0.0 then q.Floor else -((-q).Floor)
  }

  const TwoTo31: int := 0x8000_0000
  const TwoTo32: int := 0x1_0000_0000

  /** ECMAScript ToInt32 of a finite number, which is what `x | 0` computes: truncate, then wrap into 32 bits. */
  function ToInt32(q: real): (n: int)
    ensures -TwoTo31 <= n < TwoTo31
    ensures (n - Trunc(q)) % TwoTo32 == 0
    ensures -TwoTo31 <= Trunc(q) < TwoTo31 ==> n == Trunc(q)
  {
    var m := Trunc(q) % TwoTo32;
    if m >= TwoTo31 then m - TwoTo32 else m
  }

  /**
   * `value` truncated toward zero to a whole multiple of `multiplier`.
   * With a zero multiplier the quotient is infinite or NaN, `| 0` makes it 0 and
   * the result is 0.
   */
  function Snap(value: real, multiplier: real := 1.0): (r: real)
    ensures multiplier == 0.0 ==> r == 0.0
  {
    if multiplier == 0.0 then 0.0 else (ToInt32(value / multiplier) as real) * multiplier
  }

  /**
   * For a quotient within the 32-bit range, `Snap` is the multiple of `multiplier`
   * obtained by truncating `value / multiplier` toward zero.
   */
  lemma SnapTruncates(value: real, multiplier: real)
    requires multiplier != 0.0
    requires -(TwoTo31 as real) < value / multiplier < TwoTo31 as real
    ensures Snap(value, multiplier) == (Trunc(value / multiplier) as real) * multiplier
  {
    var t := Trunc(value / multiplier);
    assert -TwoTo31 <= t < TwoTo31;
    assert ToInt32(value / multiplier) == t;
  }

  /**
   * For a quotient within the 32-bit range, `Snap` lies between 0 and `value`, and
   * less than one multiplier away from `value`.
   */
  lemma SnapBounds(value: real, multiplier: real)
    requires multiplier != 0.0
    requires -(TwoTo31 as real) < value / multiplier < TwoTo31 as real
    ensures value >= 0.0 ==> 0.0 <= Snap(value, multiplier) <= value
    ensures value <= 0.0 ==> value <= Snap(value, multiplier) <= 0.0
    ensures -Max(multiplier, -multiplier) < value - Snap(value, multiplier) < Max(multiplier, -multiplier)
  {
    SnapTruncates(value, multiplier);
    DivMul(value, multiplier);
    var q := value / multiplier;
    TruncatedMultiple(value, multiplier, q, Trunc(q) as real, Snap(value, multiplier));
  }

  /** The arithmetic of `SnapTruncates`, over a quotient `q`, its truncation `t` and the multiple `p = t * m`. */
  lemma TruncatedMultiple(value: real, m: real, q: real, t: real, p: real)
    requires m != 0.0 && q * m == value && p == t * m
    requires q >= 0.0 ==> 0.0 <= t <= q < t + 1.0
    requires q < 0.0 ==> t - 1.0 < q <= t <= 0.0
    ensures value >= 0.0 ==> 0.0 <= p <= value
    ensures value <= 0.0 ==> value <= p <= 0.0
    ensures -Max(m, -m) < value - p < Max(m, -m)
  {
    var d := (q - t) * m;
    Distribute(q, t, m, d, p, value);
    FractionTimes(q - t, m, d);
    QuotientSign(value, m, q);
    ProductSigns(t, m, p);
  }

  /** Truncation, not rounding: 7 snaps down to 5 and -7 snaps up to -5. */
  lemma SnapExamples()
    ensures Snap(7.0, 5.0) == 5.0
    ensures Snap(-7.0, 5.0) == -5.0
    ensures Snap(2.5) == 2.0
  {
    assert 7.0 / 5.0 == 1.4;
    assert -7.0 / 5.0 == -1.4;
  }

  /** Outside the 32-bit range the quotient wraps, as `| 0` does. */
  lemma SnapWrapsBeyond32Bits()
    ensures Snap(TwoTo32 as real + 3.0) == 3.0
    ensures Snap(TwoTo31 as real) == -(TwoTo31 as real)
  {
  }

  /** Reversed bounds are handled: clamp(5, 10, 0) is 5, clamp(-1, 0, 10) is 0, clamp(15, 0, 10) is 10. */
  lemma ClampExamples()
    ensures Clamp(5.0, 10.0, 0.0) == 5.0
    ensures Clamp(-1.0, 0.0, 10.0) == 0.0
    ensures Clamp(15.0, 0.0, 10.0) == 10.0
  {
  }
}
