/**
 * Facts about real arithmetic that the solver does not find unaided: products
 * that vanish, squares, and the length of a vector divided by its own length.
 * Each lemma keeps its nonlinear step small and its parameters plain variables.
 */
module RealFacts {

  /** `r` is the non-negative square root of `s`. */
  predicate IsRootOf(r: real, s: real) {
    r >= 0.0 && r * r == s
  }

  /** `sqrt` behaves as `Math.sqrt` does on non-negative reals. */
  ghost predicate IsSqrt(sqrt: real -> real) {
    forall s: real :: s >= 0.0 ==> IsRootOf(sqrt(s), s)
  }

  lemma ZeroProduct(a: real, b: real)
    requires a * b == 0.0
    ensures a == 0.0 || b == 0.0
  {
  }

  lemma SquareNonnegative(a: real)
    ensures a * a >= 0.0
  {
  }

  /** A sum of two squares vanishes only when both terms do. */
  lemma SumOfSquaresZero(a: real, b: real)
    requires a * a + b * b == 0.0
    ensures a == 0.0 && b == 0.0
  {
    SquareNonnegative(a);
    SquareNonnegative(b);
    assert a * a == 0.0;
    ZeroProduct(a, a);
    ZeroProduct(b, b);
  }

  /** A sum of three squares vanishes only when all terms do. */
  lemma SumOfThreeSquaresZero(a: real, b: real, c: real)
    requires a * a + b * b + c * c == 0.0
    ensures a == 0.0 && b == 0.0 && c == 0.0
  {
    SquareNonnegative(a);
    SquareNonnegative(b);
    SquareNonnegative(c);
    assert a * a == 0.0 && b * b == 0.0;
    ZeroProduct(a, a);
    ZeroProduct(b, b);
    ZeroProduct(c, c);
  }

  /** A non-negative root is unique, so any two results of `Math.sqrt` on one input agree. */
  lemma RootUnique(r1: real, r2: real, s: real)
    requires IsRootOf(r1, s) && IsRootOf(r2, s)
    ensures r1 == r2
  {
    assert (r1 - r2) * (r1 + r2) == r1 * r1 - r2 * r2;
    ZeroProduct(r1 - r2, r1 + r2);
  }

  /** The root of zero is zero, and only zero has it. */
  lemma RootZero(r: real, s: real)
    requires IsRootOf(r, s)
    ensures r == 0.0 <==> s == 0.0
  {
    if s == 0.0 {
      ZeroProduct(r, r);
    }
  }

  lemma DivMul(x: real, l: real)
    requires l != 0.0
    ensures (x / l) * l == x
  {
  }

  lemma MulDiv(x: real, l: real)
    requires l != 0.0
    ensures (x * l) / l == x
  {
  }

  lemma DivSelf(c: real)
    requires c != 0.0
    ensures c / c == 1.0
  {
  }

  /** `s * l * l == l * l` with `l > 0` forces `s == 1`. */
  lemma CancelSquare(s: real, l: real)
    requires (s - 1.0) * (l * l) == 0.0 && l > 0.0
    ensures s == 1.0
  {
    ZeroProduct(s - 1.0, l * l);
    if l * l == 0.0 {
      ZeroProduct(l, l);
    }
  }

  lemma ScaledSquares2(u: real, v: real, x: real, y: real, l: real)
    requires u * l == x && v * l == y && l * l == x * x + y * y && l > 0.0
    ensures (u * u + v * v - 1.0) * (l * l) == 0.0
  {
  }

  lemma ScaledSquares3(u: real, v: real, w: real, x: real, y: real, z: real, l: real)
    requires u * l == x && v * l == y && w * l == z && l * l == x * x + y * y + z * z && l > 0.0
    ensures (u * u + v * v + w * w - 1.0) * (l * l) == 0.0
  {
  }

  /** Dividing both coordinates by the length `l > 0` gives squared length 1. */
  lemma UnitLength2(x: real, y: real, l: real)
    requires l > 0.0 && l * l == x * x + y * y
    ensures (x / l) * (x / l) + (y / l) * (y / l) == 1.0
  {
    DivMul(x, l);
    DivMul(y, l);
    ScaledSquares2(x / l, y / l, x, y, l);
    CancelSquare((x / l) * (x / l) + (y / l) * (y / l), l);
  }

  /** Dividing all three coordinates by the length `l > 0` gives squared length 1. */
  lemma UnitLength3(x: real, y: real, z: real, l: real)
    requires l > 0.0 && l * l == x * x + y * y + z * z
    ensures (x / l) * (x / l) + (y / l) * (y / l) + (z / l) * (z / l) == 1.0
  {
    DivMul(x, l);
    DivMul(y, l);
    DivMul(z, l);
    ScaledSquares3(x / l, y / l, z / l, x, y, z, l);
    CancelSquare((x / l) * (x / l) + (y / l) * (y / l) + (z / l) * (z / l), l);
  }

  /** `d = f * m` with `f` strictly inside (-1, 1) stays strictly within `|m|`, with the sign of the product. */
  lemma FractionTimes(f: real, m: real, d: real)
    requires -1.0 < f < 1.0 && m != 0.0 && d == f * m
    ensures m > 0.0 ==> -m < d < m
    ensures m < 0.0 ==> m < d < -m
    ensures f >= 0.0 && m > 0.0 ==> d >= 0.0
    ensures f >= 0.0 && m < 0.0 ==> d <= 0.0
    ensures f <= 0.0 && m > 0.0 ==> d <= 0.0
    ensures f <= 0.0 && m < 0.0 ==> d >= 0.0
  {
  }

  /** The sign of `p = a * b`. */
  lemma ProductSigns(a: real, b: real, p: real)
    requires p == a * b
    ensures a >= 0.0 && b >= 0.0 ==> p >= 0.0
    ensures a <= 0.0 && b <= 0.0 ==> p >= 0.0
    ensures a >= 0.0 && b <= 0.0 ==> p <= 0.0
    ensures a <= 0.0 && b >= 0.0 ==> p <= 0.0
  {
  }

  /** The sign of a quotient `q` with `q * m = value`. */
  lemma QuotientSign(value: real, m: real, q: real)
    requires m != 0.0 && q * m == value
    ensures value >= 0.0 && m > 0.0 ==> q >= 0.0
    ensures value >= 0.0 && m < 0.0 ==> q <= 0.0
    ensures value <= 0.0 && m > 0.0 ==> q <= 0.0
    ensures value <= 0.0 && m < 0.0 ==> q >= 0.0
  {
  }

  lemma Distribute(q: real, t: real, m: real, d: real, p: real, value: real)
    requires d == (q - t) * m && p == t * m && q * m == value
    ensures d == value - p
  {
  }
}
