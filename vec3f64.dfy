/** The three-component vector with named fields that the rotor works on
    (src/vec/vec3f64.rs). */
module Vec3f64 {
  import opened Scalars

  datatype Vec3f64 = Vec3f64(x: real, y: real, z: real)

  function Zero(): Vec3f64 {
    Vec3f64(0.0, 0.0, 0.0)
  }

  function One(): Vec3f64 {
    Vec3f64(1.0, 1.0, 1.0)
  }

  /** The radicand of `magnitude`. */
  function MagnitudeSquared(v: Vec3f64): real {
    v.x * v.x + v.y * v.y + v.z * v.z
  }

  /** The squared magnitude is never negative, and vanishes only at the zero
      vector. */
  lemma MagnitudeSquaredSign(v: Vec3f64)
    ensures MagnitudeSquared(v) >= 0.0
    ensures MagnitudeSquared(v) == 0.0 <==> v == Zero()
  {
    SumOfSquares(v.x, v.y, v.z, 0.0);
  }

  /** `mag` is what `v.magnitude()` returns. */
  predicate IsMagnitude(v: Vec3f64, mag: real) {
    IsRoot(MagnitudeSquared(v), mag)
  }

  function Dot(a: Vec3f64, b: Vec3f64): real {
    a.x * b.x + a.y * b.y + a.z * b.z
  }

  /** The right-handed cross product; the result is orthogonal to both factors. */
  function Cross(a: Vec3f64, b: Vec3f64): (r: Vec3f64)
    ensures Dot(r, a) == 0.0 && Dot(r, b) == 0.0
  {
    Vec3f64(a.y * b.z - a.z * b.y, a.z * b.x - a.x * b.z, a.x * b.y - a.y * b.x)
  }

  function Add(a: Vec3f64, b: Vec3f64): Vec3f64 {
    Vec3f64(a.x + b.x, a.y + b.y, a.z + b.z)
  }

  function Sub(a: Vec3f64, b: Vec3f64): Vec3f64 {
    Vec3f64(a.x - b.x, a.y - b.y, a.z - b.z)
  }

  /** `v * scalar`. */
  function Scale(v: Vec3f64, scalar: real): Vec3f64 {
    Vec3f64(v.x * scalar, v.y * scalar, v.z * scalar)
  }

  /** `scalar * v`, a separate operator implementation in the source. */
  function ScaleLeft(scalar: real, v: Vec3f64): Vec3f64 {
    Vec3f64(scalar * v.x, scalar * v.y, scalar * v.z)
  }

  /** `v / scalar`; scaling the quotient back by `scalar` gives `v`. */
  function Div(v: Vec3f64, scalar: real): (r: Vec3f64)
    requires scalar != 0.0
    ensures Scale(r, scalar) == v
  {
    Vec3f64(v.x / scalar, v.y / scalar, v.z / scalar)
  }

  /** `v.normalized()`, where `mag` is `v.magnitude()`: a unit vector that
      points the same way as `v`. */
  function Normalized(v: Vec3f64, mag: real): (r: Vec3f64)
    requires v != Zero() && IsMagnitude(v, mag)
    ensures MagnitudeSquared(r) == 1.0
    ensures Scale(r, mag) == v
  {
    MagnitudeSquaredSign(v);
    RootOfPositive(MagnitudeSquared(v), mag);
    UnitQuotients(v.x, v.y, v.z, 0.0, mag);
    Div(v, mag)
  }

  lemma DotSymmetric(a: Vec3f64, b: Vec3f64)
    ensures Dot(a, b) == Dot(b, a)
  {
  }

  lemma DotSelfIsMagnitudeSquared(v: Vec3f64)
    ensures Dot(v, v) == MagnitudeSquared(v)
  {
  }

  lemma CrossAntisymmetric(a: Vec3f64, b: Vec3f64)
    ensures Cross(a, b) == Scale(Cross(b, a), -1.0)
  {
  }

  lemma CrossExample()
    ensures Cross(Vec3f64(2.5, 1.5, 0.5), Vec3f64(3.2, 2.2, 1.1)) == Vec3f64(0.55, -1.15, 0.7)
  {
  }

  /** Both multiplication operators give the same vector. The two operator
      implementations differ only in the order of each component's product,
      so this only records that they agree. */
  lemma ScaleCommutes(v: Vec3f64, scalar: real)
    ensures Scale(v, scalar) == ScaleLeft(scalar, v)
  {
  }

  lemma AddSubInverse(v: Vec3f64, w: Vec3f64)
    ensures Sub(Add(v, w), w) == v
  {
  }

  /** `+` is commutative. */
  lemma AddCommutes(v: Vec3f64, w: Vec3f64)
    ensures Add(v, w) == Add(w, v)
  {
  }

  /** Scaling distributes over `+`. */
  lemma ScaleDistributes(v: Vec3f64, w: Vec3f64, scalar: real)
    ensures Scale(Add(v, w), scalar) == Add(Scale(v, scalar), Scale(w, scalar))
  {
  }

  lemma OneExamples()
    ensures Add(One(), One()) == Vec3f64(2.0, 2.0, 2.0)
    ensures Sub(One(), One()) == Zero()
    ensures Scale(One(), 2.0) == ScaleLeft(2.0, One()) == Vec3f64(2.0, 2.0, 2.0)
    ensures Div(One(), 2.0) == Vec3f64(0.5, 0.5, 0.5)
  {
  }

  /** A `let mut` binding of a `Vec3f64`: the methods below are the ones the
      source gives `&mut self`, and update `x`, `y`, `z` one after the other. */
  class Vec3f64Var {
    var x: real
    var y: real
    var z: real

    function Value(): Vec3f64
      reads this
    {
      Vec3f64(x, y, z)
    }

    constructor (v: Vec3f64)
      ensures Value() == v
    {
      x, y, z := v.x, v.y, v.z;
    }

    /** `normalize`, where `mag` is `self.magnitude()`. */
    method Normalize(mag: real)
      requires Value() != Zero() && IsMagnitude(Value(), mag)
      modifies this
      ensures Value() == Normalized(old(Value()), mag)
    {
      MagnitudeSquaredSign(Value());
      RootOfPositive(MagnitudeSquared(Value()), mag);
      x := x / mag;
      y := y / mag;
      z := z / mag;
    }

    method AddAssign(rhs: Vec3f64)
      modifies this
      ensures Value() == Add(old(Value()), rhs)
    {
      x := x + rhs.x;
      y := y + rhs.y;
      z := z + rhs.z;
    }

    method SubAssign(rhs: Vec3f64)
      modifies this
      ensures Value() == Sub(old(Value()), rhs)
    {
      x := x - rhs.x;
      y := y - rhs.y;
      z := z - rhs.z;
    }

    method MulAssign(scalar: real)
      modifies this
      ensures Value() == Scale(old(Value()), scalar)
    {
      x := x * scalar;
      y := y * scalar;
      z := z * scalar;
    }

    method DivAssign(scalar: real)
      requires scalar != 0.0
      modifies this
      ensures Value() == Div(old(Value()), scalar)
    {
      x := x / scalar;
      y := y / scalar;
      z := z / scalar;
    }
  }
}
