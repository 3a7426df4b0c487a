/** The four-component `f32` vector with named fields of src/vec/vec4f32.rs;
    its components are `real` here. */
module Vec4f32 {
  import opened Scalars

  datatype Vec4f32 = Vec4f32(x: real, y: real, z: real, w: real)

  function Zero(): Vec4f32 {
    Vec4f32(0.0, 0.0, 0.0, 0.0)
  }

  function One(): Vec4f32 {
    Vec4f32(1.0, 1.0, 1.0, 1.0)
  }

  /** `magnitude_squared`, the radicand of `magnitude`. */
  function MagnitudeSquared(v: Vec4f32): real {
    v.x * v.x + v.y * v.y + v.z * v.z + v.w * v.w
  }

  /** The squared magnitude is never negative, and vanishes only at the zero
      vector. */
  lemma MagnitudeSquaredSign(v: Vec4f32)
    ensures MagnitudeSquared(v) >= 0.0
    ensures MagnitudeSquared(v) == 0.0 <==> v == Zero()
  {
    SumOfSquares(v.x, v.y, v.z, v.w);
  }

  /** `mag` is what `v.magnitude()` returns. */
  predicate IsMagnitude(v: Vec4f32, mag: real) {
    IsRoot(MagnitudeSquared(v), mag)
  }

  function Dot(a: Vec4f32, b: Vec4f32): real {
    a.x * b.x + a.y * b.y + a.z * b.z + a.w * b.w
  }

  function Add(a: Vec4f32, b: Vec4f32): Vec4f32 {
    Vec4f32(a.x + b.x, a.y + b.y, a.z + b.z, a.w + b.w)
  }

  function Sub(a: Vec4f32, b: Vec4f32): Vec4f32 {
    Vec4f32(a.x - b.x, a.y - b.y, a.z - b.z, a.w - b.w)
  }

  /** `v * scalar`. */
  function Scale(v: Vec4f32, scalar: real): Vec4f32 {
    Vec4f32(v.x * scalar, v.y * scalar, v.z * scalar, v.w * scalar)
  }

  /** `scalar * v`, a separate operator implementation in the source. */
  function ScaleLeft(scalar: real, v: Vec4f32): Vec4f32 {
    Vec4f32(v.x * scalar, v.y * scalar, v.z * scalar, v.w * scalar)
  }

  /** `v / scalar`; scaling the quotient back by `scalar` gives `v`. */
  function Div(v: Vec4f32, scalar: real): (r: Vec4f32)
    requires scalar != 0.0
    ensures Scale(r, scalar) == v
  {
    Vec4f32(v.x / scalar, v.y / scalar, v.z / scalar, v.w / scalar)
  }

  /** `v.normalized()`, where `mag` is `v.magnitude()`: a unit vector that
      points the same way as `v`. */
  function Normalized(v: Vec4f32, mag: real): (r: Vec4f32)
    requires v != Zero() && IsMagnitude(v, mag)
    ensures MagnitudeSquared(r) == 1.0
    ensures Scale(r, mag) == v
  {
    MagnitudeSquaredSign(v);
    RootOfPositive(MagnitudeSquared(v), mag);
    UnitQuotients(v.x, v.y, v.z, v.w, mag);
    Vec4f32(v.x / mag, v.y / mag, v.z / mag, v.w / mag)
  }

  lemma DotSymmetric(a: Vec4f32, b: Vec4f32)
    ensures Dot(a, b) == Dot(b, a)
  {
  }

  lemma DotSelfIsMagnitudeSquared(v: Vec4f32)
    ensures Dot(v, v) == MagnitudeSquared(v)
  {
  }

  /** Both multiplication operators give the same vector. The two operator
      implementations use the same per-component formula, so this holds by
      definition and only records that they agree. */
  lemma ScaleCommutes(v: Vec4f32, scalar: real)
    ensures Scale(v, scalar) == ScaleLeft(scalar, v)
  {
  }

  lemma AddSubInverse(v: Vec4f32, w: Vec4f32)
    ensures Sub(Add(v, w), w) == v
  {
  }

  /** `+` is commutative. */
  lemma AddCommutes(v: Vec4f32, w: Vec4f32)
    ensures Add(v, w) == Add(w, v)
  {
  }

  /** Scaling distributes over `+`. */
  lemma ScaleDistributes(v: Vec4f32, w: Vec4f32, scalar: real)
    ensures Scale(Add(v, w), scalar) == Add(Scale(v, scalar), Scale(w, scalar))
  {
  }

  /** The source's tests: `one + one`, `one - one`, `one * 2`, `2 * one` and
      `one / 2`. */
  lemma OneExamples()
    ensures Add(One(), One()) == Vec4f32(2.0, 2.0, 2.0, 2.0)
    ensures Sub(One(), One()) == Zero()
    ensures Scale(One(), 2.0) == ScaleLeft(2.0, One()) == Vec4f32(2.0, 2.0, 2.0, 2.0)
    ensures Div(One(), 2.0) == Vec4f32(0.5, 0.5, 0.5, 0.5)
  {
  }

  /** A `let mut` binding of a `Vec4f32`: the methods below are the ones the
      source gives `&mut self`, and update the fields one after the other. */
  class Vec4f32Var {
    var x: real
    var y: real
    var z: real
    var w: real

    function Value(): Vec4f32
      reads this
    {
      Vec4f32(x, y, z, w)
    }

    constructor (v: Vec4f32)
      ensures Value() == v
    {
      x, y, z, w := v.x, v.y, v.z, v.w;
    }

    /** `normalize`, where `mag` is `self.magnitude()`. */
    method Normalize(mag: real)
      requires Value() != Zero() && IsMagnitude(Value(), mag)
      modifies this
      ensures Value() == Normalized(old(Value()), mag)
    {
      MagnitudeSquaredSign(Value());
      RootOfPositive(MagnitudeSquared(Value()), mag);
      x := x / mag;
      y := y / mag;
      z := z / mag;
      w := w / mag;
    }

    method AddAssign(rhs: Vec4f32)
      modifies this
      ensures Value() == Add(old(Value()), rhs)
    {
      x := x + rhs.x;
      y := y + rhs.y;
      z := z + rhs.z;
      w := w + rhs.w;
    }

    method SubAssign(rhs: Vec4f32)
      modifies this
      ensures Value() == Sub(old(Value()), rhs)
    {
      x := x - rhs.x;
      y := y - rhs.y;
      z := z - rhs.z;
      w := w - rhs.w;
    }

    method MulAssign(scalar: real)
      modifies this
      ensures Value() == Scale(old(Value()), scalar)
    {
      x := x * scalar;
      y := y * scalar;
      z := z * scalar;
      w := w * scalar;
    }

    method DivAssign(scalar: real)
      requires scalar != 0.0
      modifies this
      ensures Value() == Div(old(Value()), scalar)
    {
      x := x / scalar;
      y := y / scalar;
      z := z / scalar;
      w := w / scalar;
    }
  }
}
