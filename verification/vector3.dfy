/**
 * The spatial vector of the toolkit (src/math/Vector3.ts): a mutable object with
 * coordinates `x`, `y`, `z` and the same dirty-flag cache of length and unit
 * coordinates as the planar vector.
 *
 * Operands written `{ x, y, z = d }` in the source accept planar values, whose
 * missing `z` takes the default `d`: 0 for copy, equals, add, subtract and dot,
 * 1 for multiply and divide, and the receiver's own `z` for cross, lerp and
 * distance. They are modelled as `Operand` values whose `z` is optional.
 */
module Vectors3 {

  import opened RealFacts

  datatype Option<T> = None | Some(value: T)

  /** A triple of coordinates, the value shape of `IVector3`. */
  datatype Triple = Triple(x: real, y: real, z: real)

  /** An operand as destructured by the source: `z` may be absent. */
  datatype Operand = Operand(x: real, y: real, z: Option<real>)

  /** The frozen constants of the class, as immutable values. */
  const Zero := Triple(0.0, 0.0, 0.0)
  const One := Triple(1.0, 1.0, 1.0)
  const Up := Triple(0.0, 0.0, 1.0)
  const Down := Triple(0.0, 0.0, -1.0)
  const Right := Triple(1.0, 0.0, 0.0)
  const Left := Triple(-1.0, 0.0, 0.0)
  const Forward := Triple(0.0, 1.0, 0.0)
  const Backward := Triple(0.0, -1.0, 0.0)

  /** A full triple used as an operand. */
  function Full(t: Triple): Operand { Operand(t.x, t.y, Some(t.z)) }

  /** The operand's coordinates, with `zDefault` standing in for a missing `z`. */
  function Resolve(o: Operand, zDefault: real): (t: Triple)
    ensures t.x == o.x && t.y == o.y
    ensures o.z.Some? ==> t.z == o.z.value
    ensures o.z.None? ==> t.z == zDefault
  {
    Triple(o.x, o.y, if o.z.Some? then o.z.value else zDefault)
  }

  function Plus(a: Triple, b: Triple): Triple { Triple(a.x + b.x, a.y + b.y, a.z + b.z) }
  function Minus(a: Triple, b: Triple): Triple { Triple(a.x - b.x, a.y - b.y, a.z - b.z) }
  function Times(a: Triple, b: Triple): Triple { Triple(a.x * b.x, a.y * b.y, a.z * b.z) }

  function Quotient(a: Triple, b: Triple): Triple
    requires b.x != 0.0 && b.y != 0.0 && b.z != 0.0
  {
    Triple(a.x / b.x, a.y / b.y, a.z / b.z)
  }

  function Scaled(a: Triple, sx: real, sy: real, sz: real): Triple
  {
    Triple(a.x * sx, a.y * sy, a.z * sz)
  }

  /** The point at fraction `t` of the way from `a` to `b`. */
  function Lerped(a: Triple, b: Triple, t: real): Triple
  {
    Triple(a.x + t * (b.x - a.x), a.y + t * (b.y - a.y), a.z + t * (b.z - a.z))
  }

  function DotOf(a: Triple, b: Triple): real { a.x * b.x + a.y * b.y + a.z * b.z }

  function CrossOf(a: Triple, b: Triple): Triple
  {
    Triple(a.y * b.z - a.z * b.y, a.z * b.x - a.x * b.z, a.x * b.y - a.y * b.x)
  }

  function SquaredLength(a: Triple): real { a.x * a.x + a.y * a.y + a.z * a.z }

  /** Euclidean length. */
  function LengthOf(a: Triple, sqrt: real -> real): (r: real)
    requires IsSqrt(sqrt)
    ensures IsRootOf(r, SquaredLength(a))
    ensures r == 0.0 <==> a == Zero
  {
    SquareNonnegative(a.x);
    SquareNonnegative(a.y);
    SquareNonnegative(a.z);
    var r := sqrt(SquaredLength(a));
    RootZero(r, SquaredLength(a));
    if SquaredLength(a) == 0.0 then
      SumOfThreeSquaresZero(a.x, a.y, a.z);
      r
    else
      r
  }

  /** A coordinate divided by the length, or 0 when the length is 0 (a zero length is falsy). */
  function UnitOf(c: real, length: real): real
  {
    if length == 0.0 then 0.0 else c / length
  }

  /** `length`, `ux`, `uy` and `uz` are the length and unit coordinates of `a`. */
  predicate CacheOf(a: Triple, length: real, ux: real, uy: real, uz: real)
  {
    IsRootOf(length, SquaredLength(a)) &&
    ux == UnitOf(a.x, length) && uy == UnitOf(a.y, length) && uz == UnitOf(a.z, length)
  }

  /** The unit vector in the direction of `a`, or the zero vector for the zero vector. */
  function Unit(a: Triple, sqrt: real -> real): Triple
    requires IsSqrt(sqrt)
  {
    var l := LengthOf(a, sqrt);
    Triple(UnitOf(a.x, l), UnitOf(a.y, l), UnitOf(a.z, l))
  }

  /** `a` projected onto the line of `s`: `s` scaled by `dot(a, s) / dot(s, s)`. */
  function Projected(a: Triple, s: Triple): Triple
    requires DotOf(s, s) != 0.0
  {
    var k := DotOf(a, s) / DotOf(s, s);
    Scaled(s, k, k, k)
  }

  /** Subtracting what was added gives the original coordinates back. */
  lemma AddSubtractRoundTrip(a: Triple, b: Triple)
    ensures Minus(Plus(a, b), b) == a
    ensures Plus(Minus(a, b), b) == a
  {
  }

  /** Dividing by non-zero factors undoes multiplying by them. */
  lemma MultiplyDivideRoundTrip(a: Triple, b: Triple)
    requires b.x != 0.0 && b.y != 0.0 && b.z != 0.0
    ensures Quotient(Times(a, b), b) == a
    ensures Times(Quotient(a, b), b) == a
  {
    DivMul(a.x, b.x);
    DivMul(a.y, b.y);
    DivMul(a.z, b.z);
    MulDiv(a.x, b.x);
    MulDiv(a.y, b.y);
    MulDiv(a.z, b.z);
  }

  /**
   * The defaults for a missing `z` are the neutral ones: a planar operand leaves
   * `z` unchanged under add, subtract, multiply, divide and lerp, adds nothing to
   * the dot product, and measures distance in the plane of the receiver.
   */
  lemma PlanarOperandKeepsZ(a: Triple, o: Operand, t: real)
    requires o.z.None?
    ensures Plus(a, Resolve(o, 0.0)).z == a.z
    ensures Minus(a, Resolve(o, 0.0)).z == a.z
    ensures Times(a, Resolve(o, 1.0)).z == a.z
    ensures o.x != 0.0 && o.y != 0.0 ==> Quotient(a, Resolve(o, 1.0)).z == a.z
    ensures Lerped(a, Resolve(o, a.z), t).z == a.z
    ensures DotOf(a, Resolve(o, 0.0)) == a.x * o.x + a.y * o.y
    ensures Minus(Resolve(o, a.z), a).z == 0.0
  {
  }

  /** Negating twice gives the vector back. */
  lemma NegateInvolution(a: Triple)
    ensures Scaled(Scaled(a, -1.0, -1.0, -1.0), -1.0, -1.0, -1.0) == a
  {
  }

  /** `lerp` at 0 stays put and at 1 reaches the target. */
  lemma LerpEndpoints(a: Triple, b: Triple)
    ensures Lerped(a, b, 0.0) == a
    ensures Lerped(a, b, 1.0) == b
  {
  }

  /** The dot product is symmetric and the dot product of a vector with itself is its squared length. */
  lemma DotProperties(a: Triple, b: Triple)
    ensures DotOf(a, b) == DotOf(b, a)
    ensures DotOf(a, a) == SquaredLength(a) >= 0.0
  {
    SquareNonnegative(a.x);
    SquareNonnegative(a.y);
    SquareNonnegative(a.z);
  }

  /** The cross product is antisymmetric and perpendicular to both of its factors. */
  lemma CrossProperties(a: Triple, b: Triple)
    ensures CrossOf(a, b) == Scaled(CrossOf(b, a), -1.0, -1.0, -1.0)
    ensures CrossOf(a, a) == Zero
    ensures DotOf(CrossOf(a, b), a) == 0.0
    ensures DotOf(CrossOf(a, b), b) == 0.0
  {
    CrossOrthogonal(a.x, a.y, a.z, b.x, b.y, b.z);
  }

  lemma CrossOrthogonal(a1: real, a2: real, a3: real, b1: real, b2: real, b3: real)
    ensures (a2 * b3 - a3 * b2) * a1 + (a3 * b1 - a1 * b3) * a2 + (a1 * b2 - a2 * b1) * a3 == 0.0
    ensures (a2 * b3 - a3 * b2) * b1 + (a3 * b1 - a1 * b3) * b2 + (a1 * b2 - a2 * b1) * b3 == 0.0
  {
  }

  /**
   * The squared distance is symmetric and the difference vanishes exactly between equal
   * points; with the contract of `LengthOf` (zero exactly for the zero vector) the
   * distance is zero exactly between equal points.
   */
  lemma DistanceProperties(a: Triple, b: Triple)
    ensures SquaredLength(Minus(b, a)) == SquaredLength(Minus(a, b))
    ensures Minus(b, a) == Zero <==> a == b
  {
  }

  /** The unit vector of a non-zero vector has length 1, and scaling it by the length gives the vector back. */
  lemma UnitHasLengthOne(a: Triple, sqrt: real -> real)
    requires IsSqrt(sqrt)
    requires a != Zero
    ensures SquaredLength(Unit(a, sqrt)) == 1.0
    ensures LengthOf(Unit(a, sqrt), sqrt) == 1.0
    ensures Scaled(Unit(a, sqrt), LengthOf(a, sqrt), LengthOf(a, sqrt), LengthOf(a, sqrt)) == a
  {
    var l := LengthOf(a, sqrt);
    assert l > 0.0;
    UnitLength3(a.x, a.y, a.z, l);
    DivMul(a.x, l);
    DivMul(a.y, l);
    DivMul(a.z, l);
    RootUnique(LengthOf(Unit(a, sqrt), sqrt), 1.0, 1.0);
  }

  /** The zero vector normalises to itself. */
  lemma UnitOfZero(sqrt: real -> real)
    requires IsSqrt(sqrt)
    ensures Unit(Zero, sqrt) == Zero
  {
  }

  /** Normalising twice is normalising once. */
  lemma UnitIdempotent(a: Triple, sqrt: real -> real)
    requires IsSqrt(sqrt)
    ensures Unit(Unit(a, sqrt), sqrt) == Unit(a, sqrt)
  {
    if a != Zero {
      UnitHasLengthOne(a, sqrt);
    }
  }

  /** What remains after projecting onto `s` is perpendicular to `s`, and the projection lies along `s`. */
  lemma ProjectionOrthogonal(a: Triple, s: Triple)
    requires DotOf(s, s) != 0.0
    ensures DotOf(Minus(a, Projected(a, s)), s) == 0.0
    ensures CrossOf(Projected(a, s), s) == Zero
  {
    var k := DotOf(a, s) / DotOf(s, s);
    DivMul(DotOf(a, s), DotOf(s, s));
    ProjectionIdentity(a.x, a.y, a.z, s.x, s.y, s.z, k);
  }

  lemma ProjectionIdentity(ax: real, ay: real, az: real, sx: real, sy: real, sz: real, k: real)
    ensures (ax - sx * k) * sx + (ay - sy * k) * sy + (az - sz * k) * sz
         == (ax * sx + ay * sy + az * sz) - k * (sx * sx + sy * sy + sz * sz)
    ensures (sy * k) * sz - (sz * k) * sy == 0.0
    ensures (sz * k) * sx - (sx * k) * sz == 0.0
    ensures (sx * k) * sy - (sy * k) * sx == 0.0
  {
  }

  /** Projecting onto `s` twice is projecting once. */
  lemma ProjectionIdempotent(a: Triple, s: Triple)
    requires DotOf(s, s) != 0.0
    ensures Projected(Projected(a, s), s) == Projected(a, s)
  {
    ProjectionOrthogonal(a, s);
    var p := Projected(a, s);
    assert DotOf(Minus(a, p), s) == DotOf(a, s) - DotOf(p, s);
    assert DotOf(p, s) == DotOf(a, s);
  }

  class Vector3 {
    var x: real
    var y: real
    var z: real
    var cachedUx: real
    var cachedUy: real
    var cachedUz: real
    var cachedLength: real
    var isDirty: bool

    function Coords(): Triple
      reads this
    {
      Triple(x, y, z)
    }

    /** A clean cache holds the length and unit coordinates of the current coordinates. */
    ghost predicate Valid()
      reads this
    {
      !isDirty ==> CacheOf(Coords(), cachedLength, cachedUx, cachedUy, cachedUz)
    }

    constructor (x: real := 0.0, y: real := 0.0, z: real := 0.0)
      ensures Coords() == Triple(x, y, z) && isDirty && Valid()
    {
      this.x := x;
      this.y := y;
      this.z := z;
      this.isDirty := true;
    }

    /**
     * Refills the cache when it is dirty. A clean cache is left as it is, even when the
     * public coordinates were assigned directly after it was filled; so the cache is the
     * length and unit vector of the coordinates only if it was consistent before.
     */
    method Recalc(sqrt: real -> real) returns (self: Vector3)
      requires IsSqrt(sqrt)
      modifies this`cachedUx, this`cachedUy, this`cachedUz, this`cachedLength, this`isDirty
      ensures self == this && !isDirty
      ensures old(isDirty) ==> Valid()
      ensures !old(isDirty) ==> unchanged(this)
      ensures old(Valid()) ==> Valid() && cachedLength == LengthOf(Coords(), sqrt)
    {
      if isDirty {
        var lengthSquared := x * x + y * y + z * z;
        assert lengthSquared == SquaredLength(Coords());
        var length := sqrt(lengthSquared);
        assert length == LengthOf(Coords(), sqrt);
        cachedLength := length;
        cachedUx := UnitOf(x, length);
        cachedUy := UnitOf(y, length);
        cachedUz := UnitOf(z, length);
        isDirty := false;
      } else if Valid() {
        RootUnique(cachedLength, LengthOf(Coords(), sqrt), SquaredLength(Coords()));
      }
      self := this;
    }

    /**
     * The `length` getter: refreshes a dirty cache and returns the cached length. With a
     * consistent cache that is the length; after a direct assignment to a coordinate on a
     * clean cache it is the stale length.
     */
    method Length(sqrt: real -> real) returns (length: real)
      requires IsSqrt(sqrt)
      modifies this`cachedUx, this`cachedUy, this`cachedUz, this`cachedLength, this`isDirty
      ensures !isDirty && length == cachedLength && (old(isDirty) ==> Valid())
      ensures !old(isDirty) ==> unchanged(this)
      ensures old(Valid()) ==> Valid() && length == LengthOf(Coords(), sqrt)
    {
      if isDirty {
        var _ := Recalc(sqrt);
      }
      if Valid() {
        RootUnique(cachedLength, LengthOf(Coords(), sqrt), SquaredLength(Coords()));
      }
      length := cachedLength;
    }

    /** `magnitude()`: the same as the `length` getter. */
    method Magnitude(sqrt: real -> real) returns (length: real)
      requires IsSqrt(sqrt)
      modifies this`cachedUx, this`cachedUy, this`cachedUz, this`cachedLength, this`isDirty
      ensures !isDirty && length == cachedLength && (old(isDirty) ==> Valid())
      ensures !old(isDirty) ==> unchanged(this)
      ensures old(Valid()) ==> Valid() && length == LengthOf(Coords(), sqrt)
    {
      length := Length(sqrt);
    }

    /**
     * The `ux`, `uy` and `uz` getters: the cached coordinates of the unit vector, stale as
     * `length` can be.
     */
    method Ux(sqrt: real -> real) returns (u: real)
      requires IsSqrt(sqrt)
      modifies this`cachedUx, this`cachedUy, this`cachedUz, this`cachedLength, this`isDirty
      ensures !isDirty && u == cachedUx && (old(isDirty) ==> Valid())
      ensures !old(isDirty) ==> unchanged(this)
      ensures old(Valid()) ==> Valid() && u == Unit(Coords(), sqrt).x
    {
      if isDirty {
        var _ := Recalc(sqrt);
      }
      if Valid() {
        RootUnique(cachedLength, LengthOf(Coords(), sqrt), SquaredLength(Coords()));
      }
      u := cachedUx;
    }

    method Uy(sqrt: real -> real) returns (u: real)
      requires IsSqrt(sqrt)
      modifies this`cachedUx, this`cachedUy, this`cachedUz, this`cachedLength, this`isDirty
      ensures !isDirty && u == cachedUy && (old(isDirty) ==> Valid())
      ensures !old(isDirty) ==> unchanged(this)
      ensures old(Valid()) ==> Valid() && u == Unit(Coords(), sqrt).y
    {
      if isDirty {
        var _ := Recalc(sqrt);
      }
      if Valid() {
        RootUnique(cachedLength, LengthOf(Coords(), sqrt), SquaredLength(Coords()));
      }
      u := cachedUy;
    }

    method Uz(sqrt: real -> real) returns (u: real)
      requires IsSqrt(sqrt)
      modifies this`cachedUx, this`cachedUy, this`cachedUz, this`cachedLength, this`isDirty
      ensures !isDirty && u == cachedUz && (old(isDirty) ==> Valid())
      ensures !old(isDirty) ==> unchanged(this)
      ensures old(Valid()) ==> Valid() && u == Unit(Coords(), sqrt).z
    {
      if isDirty {
        var _ := Recalc(sqrt);
      }
      if Valid() {
        RootUnique(cachedLength, LengthOf(Coords(), sqrt), SquaredLength(Coords()));
      }
      u := cachedUz;
    }

    /** `clone()` as written: the new vector takes `y` as its `z`. */
    method Clone() returns (c: Vector3)
      ensures fresh(c) && c.Coords() == Triple(x, y, y) && c.isDirty && c.Valid()
    {
      c := new Vector3(x, y, y);
    }

    /** `clone()` as evidently intended: a new vector with the same coordinates. */
    method CloneCorrected() returns (c: Vector3)
      ensures fresh(c) && c.Coords() == Coords() && c.isDirty && c.Valid()
    {
      c := new Vector3(x, y, z);
    }

    method Set(x: real, y: real, z: real) returns (self: Vector3)
      modifies this`x, this`y, this`z, this`isDirty
      ensures self == this && Coords() == Triple(x, y, z) && isDirty && Valid()
    {
      this.x := x;
      this.y := y;
      this.z := z;
      isDirty := true;
      self := this;
    }

    method Copy(o: Operand) returns (self: Vector3)
      modifies this`x, this`y, this`z, this`isDirty
      ensures self == this && Coords() == Resolve(o, 0.0) && isDirty && Valid()
    {
      var p := Resolve(o, 0.0);
      self := Set(p.x, p.y, p.z);
    }

    /** Coordinate-wise equality with the operand, a missing `z` counting as 0. */
    function Equals(o: Operand): (r: bool)
      reads this
      ensures r <==> Coords() == Resolve(o, 0.0)
      ensures o.z.None? ==> (r <==> x == o.x && y == o.y && z == 0.0)
    {
      var p := Resolve(o, 0.0);
      x == p.x && y == p.y && z == p.z
    }

    method Add(o: Operand) returns (self: Vector3)
      modifies this`x, this`y, this`z, this`isDirty
      ensures self == this && Coords() == Plus(old(Coords()), Resolve(o, 0.0)) && isDirty && Valid()
    {
      var p := Resolve(o, 0.0);
      self := Set(x + p.x, y + p.y, z + p.z);
    }

    method Subtract(o: Operand) returns (self: Vector3)
      modifies this`x, this`y, this`z, this`isDirty
      ensures self == this && Coords() == Minus(old(Coords()), Resolve(o, 0.0)) && isDirty && Valid()
    {
      var p := Resolve(o, 0.0);
      self := Set(x - p.x, y - p.y, z - p.z);
    }

    method Multiply(o: Operand) returns (self: Vector3)
      modifies this`x, this`y, this`z, this`isDirty
      ensures self == this && Coords() == Times(old(Coords()), Resolve(o, 1.0)) && isDirty && Valid()
    {
      var p := Resolve(o, 1.0);
      self := Set(x * p.x, y * p.y, z * p.z);
    }

    method Divide(o: Operand) returns (self: Vector3)
      requires o.x != 0.0 && o.y != 0.0 && Resolve(o, 1.0).z != 0.0
      modifies this`x, this`y, this`z, this`isDirty
      ensures self == this && Coords() == Quotient(old(Coords()), Resolve(o, 1.0)) && isDirty && Valid()
    {
      var p := Resolve(o, 1.0);
      self := Set(x / p.x, y / p.y, z / p.z);
    }

    /** The dot product with the operand, a missing `z` counting as 0. */
    function Dot(o: Operand): (r: real)
      reads this
      ensures r == DotOf(Coords(), Resolve(o, 0.0)) == DotOf(Resolve(o, 0.0), Coords())
      ensures Resolve(o, 0.0) == Coords() ==> r == SquaredLength(Coords()) >= 0.0
    {
      DotProperties(Coords(), Resolve(o, 0.0));
      DotOf(Coords(), Resolve(o, 0.0))
    }

    /** Replaces this vector by its cross product with the operand, a missing `z` taking this vector's `z`. */
    method Cross(o: Operand) returns (self: Vector3)
      modifies this`x, this`y, this`z, this`isDirty
      ensures self == this && Coords() == CrossOf(old(Coords()), Resolve(o, old(z))) && isDirty && Valid()
    {
      var p := Resolve(o, z);
      self := Set(y * p.z - z * p.y, z * p.x - x * p.z, x * p.y - y * p.x);
    }

    /** Moves toward the operand by `t`; a missing `z` takes this vector's `z`, so `z` stays put. */
    method Lerp(o: Operand, t: real := 0.0) returns (self: Vector3)
      modifies this`x, this`y, this`z, this`isDirty
      ensures self == this && Coords() == Lerped(old(Coords()), Resolve(o, old(z)), t) && isDirty && Valid()
    {
      var p := Resolve(o, z);
      self := Set(x + t * (p.x - x), y + t * (p.y - y), z + t * (p.z - z));
    }

    /** Scales each coordinate; the y and z factors default to the x factor. */
    method Scale(sx: real, sy: real := sx, sz: real := sx) returns (self: Vector3)
      modifies this`x, this`y, this`z, this`isDirty
      ensures self == this && Coords() == Scaled(old(Coords()), sx, sy, sz) && isDirty && Valid()
    {
      self := Set(x * sx, y * sy, z * sz);
    }

    method Negate() returns (self: Vector3)
      modifies this`x, this`y, this`z, this`isDirty
      ensures self == this && Coords() == Scaled(old(Coords()), -1.0, -1.0, -1.0) && isDirty && Valid()
    {
      self := Scale(-1.0);
    }

    /** Euclidean distance to the operand, a missing `z` taking this vector's `z`. */
    function Distance(o: Operand, sqrt: real -> real): (r: real)
      requires IsSqrt(sqrt)
      reads this
      ensures IsRootOf(r, SquaredLength(Minus(Resolve(o, z), Coords())))
      ensures r == 0.0 <==> Coords() == Resolve(o, z)
    {
      DistanceProperties(Coords(), Resolve(o, z));
      LengthOf(Minus(Resolve(o, z), Coords()), sqrt)
    }

    /** Replaces this vector by its cached unit vector. */
    method Normalize(sqrt: real -> real) returns (self: Vector3)
      requires IsSqrt(sqrt)
      modifies this
      ensures self == this && isDirty && Valid()
      ensures old(Valid()) ==> Coords() == Unit(old(Coords()), sqrt)
      ensures !old(isDirty) ==> Coords() == Triple(old(cachedUx), old(cachedUy), old(cachedUz))
    {
      var ux := Ux(sqrt);
      var uy := Uy(sqrt);
      var uz := Uz(sqrt);
      self := Set(ux, uy, uz);
    }

    /** Replaces this vector by its projection onto `src`, which may be this vector itself. */
    method Project(src: Vector3) returns (self: Vector3)
      requires DotOf(src.Coords(), src.Coords()) != 0.0
      modifies this`x, this`y, this`z, this`isDirty
      ensures self == this && isDirty && Valid()
      ensures Coords() == Projected(old(Coords()), old(src.Coords()))
    {
      var scalar := Dot(Full(src.Coords())) / src.Dot(Full(src.Coords()));
      self := Copy(Full(src.Coords()));
      self := Scale(scalar);
    }
  }

  /** `clone` of (1, 2, 3) gives (1, 2, 2) instead of an equal vector. */
  method CloneOfOneTwoThree() returns (written: Triple, intended: Triple)
    ensures written == Triple(1.0, 2.0, 2.0)
    ensures intended == Triple(1.0, 2.0, 3.0)
  {
    var v := new Vector3(1.0, 2.0, 3.0);
    var c := v.Clone();
    written := c.Coords();
    var d := v.CloneCorrected();
    intended := d.Coords();
  }

  /** A vector normalised and then measured has magnitude 1: new Vector3(10, 10, 10).normalize().magnitude(). */
  method NormalizeThenMagnitude(sqrt: real -> real) returns (m: real)
    requires IsSqrt(sqrt)
    ensures m == 1.0
  {
    var v := new Vector3(10.0, 10.0, 10.0);
    var _ := v.Normalize(sqrt);
    m := v.Magnitude(sqrt);
    assert m == LengthOf(Unit(Triple(10.0, 10.0, 10.0), sqrt), sqrt);
    UnitHasLengthOne(Triple(10.0, 10.0, 10.0), sqrt);
  }
}
