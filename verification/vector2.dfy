/**
 * The planar vector of the toolkit (src/math/Vector2.ts): a mutable object with
 * coordinates `x`, `y` and a lazily recomputed cache of its length and unit
 * coordinates, guarded by a dirty flag that every change of coordinates raises.
 *
 * Operands written `{ x, y }` in the source are destructured when the call is
 * made, so they are modelled as `Pair` values; pass `v.Coords()` to use another
 * vector (or this one) as the operand. Mutating operations return the receiver,
 * as the source does for chaining.
 */
module Vectors2 {

  import opened RealFacts

  /** A pair of coordinates, the value shape of `IVector2`. */
  datatype Pair = Pair(x: real, y: real)

  /** The frozen constants of the class, as immutable values. */
  const Zero := Pair(0.0, 0.0)
  const One := Pair(1.0, 1.0)
  const Up := Pair(0.0, 1.0)
  const Down := Pair(0.0, -1.0)
  const Right := Pair(1.0, 0.0)
  const Left := Pair(-1.0, 0.0)

  function Plus(a: Pair, b: Pair): Pair { Pair(a.x + b.x, a.y + b.y) }
  function Minus(a: Pair, b: Pair): Pair { Pair(a.x - b.x, a.y - b.y) }
  function Times(a: Pair, b: Pair): Pair { Pair(a.x * b.x, a.y * b.y) }

  function Quotient(a: Pair, b: Pair): Pair
    requires b.x != 0.0 && b.y != 0.0
  {
    Pair(a.x / b.x, a.y / b.y)
  }

  function Scaled(a: Pair, sx: real, sy: real): Pair { Pair(a.x * sx, a.y * sy) }

  /** The point at fraction `t` of the way from `a` to `b`. */
  function Lerped(a: Pair, b: Pair, t: real): Pair
  {
    Pair(a.x + t * (b.x - a.x), a.y + t * (b.y - a.y))
  }

  function DotOf(a: Pair, b: Pair): real { a.x * b.x + a.y * b.y }

  /** The z component of the three-dimensional cross product. */
  function CrossOf(a: Pair, b: Pair): real { a.x * b.y - a.y * b.x }

  function SquaredLength(a: Pair): real { a.x * a.x + a.y * a.y }

  /** Euclidean length. */
  function LengthOf(a: Pair, sqrt: real -> real): (r: real)
    requires IsSqrt(sqrt)
    ensures IsRootOf(r, SquaredLength(a))
    ensures r == 0.0 <==> a == Zero
  {
    SquareNonnegative(a.x);
    SquareNonnegative(a.y);
    var r := sqrt(SquaredLength(a));
    RootZero(r, SquaredLength(a));
    if SquaredLength(a) == 0.0 then
      SumOfSquaresZero(a.x, a.y);
      r
    else
      r
  }

  /** A coordinate divided by the length, or 0 when the length is 0 (a zero length is falsy). */
  function UnitOf(c: real, length: real): real
  {
    if length == 0.0 then 0.0 else c / length
  }

  /** `length`, `ux` and `uy` are the length and unit coordinates of `a`. */
  predicate CacheOf(a: Pair, length: real, ux: real, uy: real)
  {
    IsRootOf(length, SquaredLength(a)) && ux == UnitOf(a.x, length) && uy == UnitOf(a.y, length)
  }

  /** The unit vector in the direction of `a`, or the zero vector for the zero vector. */
  function Unit(a: Pair, sqrt: real -> real): Pair
    requires IsSqrt(sqrt)
  {
    var l := LengthOf(a, sqrt);
    Pair(UnitOf(a.x, l), UnitOf(a.y, l))
  }

  /** What `normalize` computes as written: the unit x coordinate twice, since `uy` reads `_ux`. */
  function NormalizedAsWritten(a: Pair, sqrt: real -> real): Pair
    requires IsSqrt(sqrt)
  {
    Pair(Unit(a, sqrt).x, Unit(a, sqrt).x)
  }

  /** What `normal` computes as written: `(-uy, ux)` with `uy` reading `_ux`. */
  function NormalAsWritten(a: Pair, sqrt: real -> real): Pair
    requires IsSqrt(sqrt)
  {
    Pair(-Unit(a, sqrt).x, Unit(a, sqrt).x)
  }

  /** The unit vector turned a quarter turn: `(-uy, ux)`. */
  function Perpendicular(a: Pair, sqrt: real -> real): Pair
    requires IsSqrt(sqrt)
  {
    Pair(-Unit(a, sqrt).y, Unit(a, sqrt).x)
  }

  /** `a` projected onto the line of `s`: `s` scaled by `dot(a, s) / dot(s, s)`. */
  function Projected(a: Pair, s: Pair): Pair
    requires DotOf(s, s) != 0.0
  {
    var k := DotOf(a, s) / DotOf(s, s);
    Scaled(s, k, k)
  }

  /** Subtracting what was added gives the original coordinates back. */
  lemma AddSubtractRoundTrip(a: Pair, b: Pair)
    ensures Minus(Plus(a, b), b) == a
    ensures Plus(Minus(a, b), b) == a
  {
  }

  /** Dividing by non-zero factors undoes multiplying by them. */
  lemma MultiplyDivideRoundTrip(a: Pair, b: Pair)
    requires b.x != 0.0 && b.y != 0.0
    ensures Quotient(Times(a, b), b) == a
    ensures Times(Quotient(a, b), b) == a
  {
    DivMul(a.x, b.x);
    DivMul(a.y, b.y);
    MulDiv(a.x, b.x);
    MulDiv(a.y, b.y);
  }

  /** Negating twice gives the vector back. */
  lemma NegateInvolution(a: Pair)
    ensures Scaled(Scaled(a, -1.0, -1.0), -1.0, -1.0) == a
  {
  }

  /** `lerp` at 0 stays put and at 1 reaches the target. */
  lemma LerpEndpoints(a: Pair, b: Pair)
    ensures Lerped(a, b, 0.0) == a
    ensures Lerped(a, b, 1.0) == b
  {
  }

  /** The dot product is symmetric and the dot product of a vector with itself is its squared length. */
  lemma DotProperties(a: Pair, b: Pair)
    ensures DotOf(a, b) == DotOf(b, a)
    ensures DotOf(a, a) == SquaredLength(a) >= 0.0
  {
    SquareNonnegative(a.x);
    SquareNonnegative(a.y);
  }

  /** The cross product is antisymmetric, so it vanishes for a vector with itself. */
  lemma CrossAntisymmetric(a: Pair, b: Pair)
    ensures CrossOf(a, b) == -CrossOf(b, a)
    ensures CrossOf(a, a) == 0.0
  {
  }

  /**
   * The squared distance is symmetric and the difference vanishes exactly between equal
   * points; with the contract of `LengthOf` (zero exactly for the zero vector) the
   * distance is zero exactly between equal points.
   */
  lemma DistanceProperties(a: Pair, b: Pair)
    ensures SquaredLength(Minus(b, a)) == SquaredLength(Minus(a, b))
    ensures Minus(b, a) == Zero <==> a == b
  {
  }

  /** The unit vector of a non-zero vector has length 1, and scaling it by the length gives the vector back. */
  lemma UnitHasLengthOne(a: Pair, sqrt: real -> real)
    requires IsSqrt(sqrt)
    requires a != Zero
    ensures SquaredLength(Unit(a, sqrt)) == 1.0
    ensures Scaled(Unit(a, sqrt), LengthOf(a, sqrt), LengthOf(a, sqrt)) == a
  {
    var l := LengthOf(a, sqrt);
    assert l > 0.0;
    UnitLength2(a.x, a.y, l);
    DivMul(a.x, l);
    DivMul(a.y, l);
  }

  /** The zero vector normalises to itself. */
  lemma UnitOfZero(sqrt: real -> real)
    requires IsSqrt(sqrt)
    ensures Unit(Zero, sqrt) == Zero
  {
  }

  /** The quarter-turned unit vector is perpendicular to the vector and, for a non-zero vector, has length 1. */
  lemma PerpendicularIsNormal(a: Pair, sqrt: real -> real)
    requires IsSqrt(sqrt)
    ensures DotOf(a, Perpendicular(a, sqrt)) == 0.0
    ensures a != Zero ==> SquaredLength(Perpendicular(a, sqrt)) == 1.0
  {
    var l := LengthOf(a, sqrt);
    if a != Zero {
      UnitHasLengthOne(a, sqrt);
      PerpendicularDot(a.x, a.y, l);
    }
  }

  lemma PerpendicularDot(x: real, y: real, l: real)
    requires l != 0.0
    ensures x * -(y / l) + y * (x / l) == 0.0
  {
    DivMul(x, l);
    DivMul(y, l);
    assert x * -(y / l) + y * (x / l) == (y * x - x * y) / l;
  }

  /** What remains after projecting onto `s` is perpendicular to `s`, and the projection lies along `s`. */
  lemma ProjectionOrthogonal(a: Pair, s: Pair)
    requires DotOf(s, s) != 0.0
    ensures DotOf(Minus(a, Projected(a, s)), s) == 0.0
    ensures CrossOf(Projected(a, s), s) == 0.0
  {
    var k := DotOf(a, s) / DotOf(s, s);
    DivMul(DotOf(a, s), DotOf(s, s));
    ProjectionIdentity(a.x, a.y, s.x, s.y, k);
  }

  lemma ProjectionIdentity(ax: real, ay: real, sx: real, sy: real, k: real)
    ensures (ax - sx * k) * sx + (ay - sy * k) * sy == (ax * sx + ay * sy) - k * (sx * sx + sy * sy)
    ensures (sx * k) * sy - (sy * k) * sx == 0.0
  {
  }

  /** Projecting onto `s` twice is projecting once. */
  lemma ProjectionIdempotent(a: Pair, s: Pair)
    requires DotOf(s, s) != 0.0
    ensures Projected(Projected(a, s), s) == Projected(a, s)
  {
    ProjectionOrthogonal(a, s);
    var p := Projected(a, s);
    var k := DotOf(a, s) / DotOf(s, s);
    assert DotOf(Minus(a, p), s) == DotOf(a, s) - DotOf(p, s);
    assert DotOf(p, s) == DotOf(a, s);
  }

  class Vector2 {
    var x: real
    var y: real
    var cachedUx: real
    var cachedUy: real
    var cachedLength: real
    var isDirty: bool

    function Coords(): Pair
      reads this
    {
      Pair(x, y)
    }

    /** A clean cache holds the length and unit coordinates of the current coordinates. */
    ghost predicate Valid()
      reads this
    {
      !isDirty ==> CacheOf(Coords(), cachedLength, cachedUx, cachedUy)
    }

    constructor (x: real := 0.0, y: real := 0.0)
      ensures Coords() == Pair(x, y) && isDirty && Valid()
    {
      this.x := x;
      this.y := y;
      this.isDirty := true;
    }

    /**
     * Refills the cache when it is dirty. A clean cache is left as it is, even when the
     * public coordinates were assigned directly after it was filled; so the cache is the
     * length and unit vector of the coordinates only if it was consistent before.
     */
    method Recalc(sqrt: real -> real) returns (self: Vector2)
      requires IsSqrt(sqrt)
      modifies this`cachedUx, this`cachedUy, this`cachedLength, this`isDirty
      ensures self == this && !isDirty
      ensures old(isDirty) ==> Valid()
      ensures !old(isDirty) ==> unchanged(this)
      ensures old(Valid()) ==> Valid() && cachedLength == LengthOf(Coords(), sqrt)
    {
      if isDirty {
        var lengthSquared := x * x + y * y;
        assert lengthSquared == SquaredLength(Coords());
        var length := sqrt(lengthSquared);
        assert length == LengthOf(Coords(), sqrt);
        cachedLength := length;
        cachedUx := UnitOf(x, length);
        cachedUy := UnitOf(y, length);
        isDirty := false;
      } else if Valid() {
        RootUnique(cachedLength, LengthOf(Coords(), sqrt), SquaredLength(Coords()));
      }
      self := this;
    }

    /**
     * The `length` getter: refreshes a dirty cache and returns the cached length. With a
     * consistent cache that is the length; after a direct assignment to `x` or `y` on a
     * clean cache it is the stale length.
     */
    method Length(sqrt: real -> real) returns (length: real)
      requires IsSqrt(sqrt)
      modifies this`cachedUx, this`cachedUy, this`cachedLength, this`isDirty
      ensures !isDirty && length == cachedLength && (old(isDirty) ==> Valid())
      ensures !old(isDirty) ==> unchanged(this)
      ensures old(Valid()) ==> Valid() && length == LengthOf(Coords(), sqrt)
    {
      if isDirty {
        var _ := Recalc(sqrt);
      }
      if Valid() {
        RootUnique(cachedLength, LengthOf(Coords(), sqrt), SquaredLength(Coords()));
      }
      length := cachedLength;
    }

    /** `magnitude()`: the same as the `length` getter. */
    method Magnitude(sqrt: real -> real) returns (length: real)
      requires IsSqrt(sqrt)
      modifies this`cachedUx, this`cachedUy, this`cachedLength, this`isDirty
      ensures !isDirty && length == cachedLength && (old(isDirty) ==> Valid())
      ensures !old(isDirty) ==> unchanged(this)
      ensures old(Valid()) ==> Valid() && length == LengthOf(Coords(), sqrt)
    {
      length := Length(sqrt);
    }

    /** The `ux` getter: the cached x coordinate of the unit vector, stale as `length` can be. */
    method Ux(sqrt: real -> real) returns (u: real)
      requires IsSqrt(sqrt)
      modifies this`cachedUx, this`cachedUy, this`cachedLength, this`isDirty
      ensures !isDirty && u == cachedUx && (old(isDirty) ==> Valid())
      ensures !old(isDirty) ==> unchanged(this)
      ensures old(Valid()) ==> Valid() && u == Unit(Coords(), sqrt).x
    {
      if isDirty {
        var _ := Recalc(sqrt);
      }
      if Valid() {
        RootUnique(cachedLength, LengthOf(Coords(), sqrt), SquaredLength(Coords()));
      }
      u := cachedUx;
    }

    /** The `uy` getter as written: it returns the cached unit x coordinate. */
    method Uy(sqrt: real -> real) returns (u: real)
      requires IsSqrt(sqrt)
      modifies this`cachedUx, this`cachedUy, this`cachedLength, this`isDirty
      ensures !isDirty && u == cachedUx && (old(isDirty) ==> Valid())
      ensures !old(isDirty) ==> unchanged(this)
      ensures old(Valid()) ==> Valid() && u == Unit(Coords(), sqrt).x
    {
      if isDirty {
        var _ := Recalc(sqrt);
      }
      if Valid() {
        RootUnique(cachedLength, LengthOf(Coords(), sqrt), SquaredLength(Coords()));
      }
      u := cachedUx;
    }

    /** The `uy` getter as evidently intended: the cached y coordinate of the unit vector. */
    method UnitY(sqrt: real -> real) returns (u: real)
      requires IsSqrt(sqrt)
      modifies this`cachedUx, this`cachedUy, this`cachedLength, this`isDirty
      ensures !isDirty && u == cachedUy && (old(isDirty) ==> Valid())
      ensures !old(isDirty) ==> unchanged(this)
      ensures old(Valid()) ==> Valid() && u == Unit(Coords(), sqrt).y
    {
      if isDirty {
        var _ := Recalc(sqrt);
      }
      if Valid() {
        RootUnique(cachedLength, LengthOf(Coords(), sqrt), SquaredLength(Coords()));
      }
      u := cachedUy;
    }

    /** A new vector with the same coordinates and a dirty cache. */
    method Clone() returns (c: Vector2)
      ensures fresh(c) && c.Coords() == Coords() && c.isDirty && c.Valid()
    {
      c := new Vector2(x, y);
    }

    method Set(x: real, y: real) returns (self: Vector2)
      modifies this`x, this`y, this`isDirty
      ensures self == this && Coords() == Pair(x, y) && isDirty && Valid()
    {
      this.x := x;
      this.y := y;
      isDirty := true;
      self := this;
    }

    method Copy(p: Pair) returns (self: Vector2)
      modifies this`x, this`y, this`isDirty
      ensures self == this && Coords() == p && isDirty && Valid()
    {
      self := Set(p.x, p.y);
    }

    /** Coordinate-wise equality with `p`. */
    function Equals(p: Pair): (r: bool)
      reads this
      ensures r <==> Coords() == p
    {
      x == p.x && y == p.y
    }

    method Add(p: Pair) returns (self: Vector2)
      modifies this`x, this`y, this`isDirty
      ensures self == this && Coords() == Plus(old(Coords()), p) && isDirty && Valid()
    {
      self := Set(x + p.x, y + p.y);
    }

    method Subtract(p: Pair) returns (self: Vector2)
      modifies this`x, this`y, this`isDirty
      ensures self == this && Coords() == Minus(old(Coords()), p) && isDirty && Valid()
    {
      self := Set(x - p.x, y - p.y);
    }

    method Multiply(p: Pair) returns (self: Vector2)
      modifies this`x, this`y, this`isDirty
      ensures self == this && Coords() == Times(old(Coords()), p) && isDirty && Valid()
    {
      self := Set(x * p.x, y * p.y);
    }

    method Divide(p: Pair) returns (self: Vector2)
      requires p.x != 0.0 && p.y != 0.0
      modifies this`x, this`y, this`isDirty
      ensures self == this && Coords() == Quotient(old(Coords()), p) && isDirty && Valid()
    {
      self := Set(x / p.x, y / p.y);
    }

    /** The dot product with `p`; `DotProperties` states its algebra. */
    function Dot(p: Pair): (r: real)
      reads this
      ensures r == DotOf(Coords(), p) == DotOf(p, Coords())
      ensures p == Coords() ==> r == SquaredLength(p) >= 0.0
    {
      DotProperties(Coords(), p);
      DotOf(Coords(), p)
    }

    /** The z component of the cross product with `p`; it changes sign with the operands. */
    function Cross(p: Pair): (r: real)
      reads this
      ensures r == CrossOf(Coords(), p) == -CrossOf(p, Coords())
      ensures p == Coords() ==> r == 0.0
    {
      CrossAntisymmetric(Coords(), p);
      CrossOf(Coords(), p)
    }

    method Lerp(p: Pair, t: real := 0.0) returns (self: Vector2)
      modifies this`x, this`y, this`isDirty
      ensures self == this && Coords() == Lerped(old(Coords()), p, t) && isDirty && Valid()
    {
      self := Set(x + t * (p.x - x), y + t * (p.y - y));
    }

    /** Scales each coordinate; the y factor defaults to the x factor. */
    method Scale(sx: real, sy: real := sx) returns (self: Vector2)
      modifies this`x, this`y, this`isDirty
      ensures self == this && Coords() == Scaled(old(Coords()), sx, sy) && isDirty && Valid()
    {
      self := Set(x * sx, y * sy);
    }

    method Negate() returns (self: Vector2)
      modifies this`x, this`y, this`isDirty
      ensures self == this && Coords() == Scaled(old(Coords()), -1.0, -1.0) && isDirty && Valid()
    {
      self := Scale(-1.0);
    }

    /** Euclidean distance to `p`. */
    function Distance(p: Pair, sqrt: real -> real): (r: real)
      requires IsSqrt(sqrt)
      reads this
      ensures IsRootOf(r, (p.x - x) * (p.x - x) + (p.y - y) * (p.y - y))
      ensures r == 0.0 <==> Coords() == p
    {
      DistanceProperties(Coords(), p);
      LengthOf(Minus(p, Coords()), sqrt)
    }

    /** `normalize()` as written: sets both coordinates to the cached unit x coordinate. */
    method Normalize(sqrt: real -> real) returns (self: Vector2)
      requires IsSqrt(sqrt)
      modifies this
      ensures self == this && isDirty && Valid()
      ensures old(Valid()) ==> Coords() == NormalizedAsWritten(old(Coords()), sqrt)
      ensures !old(isDirty) ==> Coords() == Pair(old(cachedUx), old(cachedUx))
    {
      var ux := Ux(sqrt);
      var uy := Uy(sqrt);
      self := Set(ux, uy);
    }

    /** `normalize()` as evidently intended: sets the coordinates to the cached unit vector. */
    method NormalizeCorrected(sqrt: real -> real) returns (self: Vector2)
      requires IsSqrt(sqrt)
      modifies this
      ensures self == this && isDirty && Valid()
      ensures old(Valid()) ==> Coords() == Unit(old(Coords()), sqrt)
      ensures !old(isDirty) ==> Coords() == Pair(old(cachedUx), old(cachedUy))
    {
      var ux := Ux(sqrt);
      var uy := UnitY(sqrt);
      self := Set(ux, uy);
    }

    /** `normal()` as written: a new vector `(-uy, ux)`, with `uy` reading the unit x coordinate. */
    method Normal(sqrt: real -> real) returns (n: Vector2)
      requires IsSqrt(sqrt)
      modifies this`cachedUx, this`cachedUy, this`cachedLength, this`isDirty
      ensures fresh(n) && n.isDirty && n.Valid() && Coords() == old(Coords())
      ensures old(Valid()) ==> Valid() && n.Coords() == NormalAsWritten(Coords(), sqrt)
      ensures !old(isDirty) ==> unchanged(this) && n.Coords() == Pair(-old(cachedUx), old(cachedUx))
    {
      var uy := Uy(sqrt);
      var ux := Ux(sqrt);
      n := new Vector2(-uy, ux);
    }

    /** `normal()` as evidently intended: a new unit vector perpendicular to this one. */
    method NormalCorrected(sqrt: real -> real) returns (n: Vector2)
      requires IsSqrt(sqrt)
      modifies this`cachedUx, this`cachedUy, this`cachedLength, this`isDirty
      ensures fresh(n) && n.isDirty && n.Valid() && Coords() == old(Coords())
      ensures old(Valid()) ==> Valid() && n.Coords() == Perpendicular(Coords(), sqrt)
      ensures !old(isDirty) ==> unchanged(this) && n.Coords() == Pair(-old(cachedUy), old(cachedUx))
    {
      var uy := UnitY(sqrt);
      var ux := Ux(sqrt);
      n := new Vector2(-uy, ux);
    }

    /** Replaces this vector by its projection onto `src`, which may be this vector itself. */
    method Project(src: Vector2) returns (self: Vector2)
      requires DotOf(src.Coords(), src.Coords()) != 0.0
      modifies this`x, this`y, this`isDirty
      ensures self == this && isDirty && Valid()
      ensures Coords() == Projected(old(Coords()), old(src.Coords()))
    {
      var scalar := Dot(src.Coords()) / src.Dot(src.Coords());
      self := Copy(src.Coords());
      self := Scale(scalar);
    }
  }

  /** `uy` of the vector (0, 1) answers 0 where the unit y coordinate is 1. */
  method UyOfUp(sqrt: real -> real) returns (uy: real, intended: real)
    requires IsSqrt(sqrt)
    ensures uy == 0.0 && intended == 1.0
  {
    var v := new Vector2(0.0, 1.0);
    assert v.Coords() == Up;
    uy := v.Uy(sqrt);
    intended := v.UnitY(sqrt);
    assert uy == Unit(Up, sqrt).x && intended == Unit(Up, sqrt).y;
    UnitOfAxis(Up, sqrt);
  }

  /** `normalize` turns the vector (0, 1) into (0, 0) instead of leaving it unchanged. */
  method NormalizeUp(sqrt: real -> real) returns (written: Pair, intended: Pair)
    requires IsSqrt(sqrt)
    ensures written == Zero && intended == Up
  {
    var v := new Vector2(0.0, 1.0);
    assert v.Coords() == Up;
    var _ := v.Normalize(sqrt);
    written := v.Coords();
    var w := new Vector2(0.0, 1.0);
    assert w.Coords() == Up;
    var _ := w.NormalizeCorrected(sqrt);
    intended := w.Coords();
    assert written == NormalizedAsWritten(Up, sqrt) && intended == Unit(Up, sqrt);
    UnitOfAxis(Up, sqrt);
  }

  /** `normal` of the vector (1, 0) is (-1, 1), which is neither perpendicular to it nor of length 1. */
  method NormalOfRight(sqrt: real -> real) returns (written: Pair, intended: Pair)
    requires IsSqrt(sqrt)
    ensures written == Pair(-1.0, 1.0) && DotOf(written, Right) == -1.0 && SquaredLength(written) == 2.0
    ensures intended == Up && DotOf(intended, Right) == 0.0
  {
    var v := new Vector2(1.0, 0.0);
    assert v.Coords() == Right;
    var n := v.Normal(sqrt);
    written := n.Coords();
    var m := v.NormalCorrected(sqrt);
    intended := m.Coords();
    assert written == NormalAsWritten(Right, sqrt) && intended == Perpendicular(Right, sqrt);
    NormalsOfRight(sqrt);
  }

  /**
   * `x` and `y` are public fields: assigning `x` directly leaves a clean cache clean, so
   * `length` of (3, 4) keeps answering 5 after the vector has become (0, 4).
   */
  method StaleLength(sqrt: real -> real) returns (before: real, after: real, actual: real)
    requires IsSqrt(sqrt)
    ensures before == 5.0 && after == 5.0 && actual == 4.0
  {
    var v := new Vector2(3.0, 4.0);
    before := v.Length(sqrt);
    v.x := 0.0;
    after := v.Length(sqrt);
    actual := LengthOf(v.Coords(), sqrt);
    LengthsOfThreeFour(sqrt);
  }

  lemma LengthsOfThreeFour(sqrt: real -> real)
    requires IsSqrt(sqrt)
    ensures LengthOf(Pair(3.0, 4.0), sqrt) == 5.0
    ensures LengthOf(Pair(0.0, 4.0), sqrt) == 4.0
  {
    RootUnique(LengthOf(Pair(3.0, 4.0), sqrt), 5.0, 25.0);
    RootUnique(LengthOf(Pair(0.0, 4.0), sqrt), 4.0, 16.0);
  }

  lemma NormalsOfRight(sqrt: real -> real)
    requires IsSqrt(sqrt)
    ensures NormalAsWritten(Right, sqrt) == Pair(-1.0, 1.0)
    ensures Perpendicular(Right, sqrt) == Up
  {
    UnitOfAxis(Right, sqrt);
  }

  /** The unit axes are their own unit vectors, whatever function computes the square root. */
  lemma UnitOfAxis(a: Pair, sqrt: real -> real)
    requires IsSqrt(sqrt)
    requires a in {Up, Down, Right, Left}
    ensures Unit(a, sqrt) == a
  {
    RootUnique(LengthOf(a, sqrt), 1.0, 1.0);
  }
}
