/** The two-component `f32` vector with named fields of src/vec/vec2f32.rs;
    its components are `real` here. */
module Vec2f32 {
  import opened Scalars

  datatype Vec2f32 = Vec2f32(x: real, y: real)

  function Zero(): Vec2f32 {
    Vec2f32(0.0, 0.0)
  }

  function One(): Vec2f32 {
    Vec2f32(1.0, 1.0)
  }

  /** `magnitude_squared`, the radicand of `magnitude`. */
  function MagnitudeSquared(v: Vec2f32): real {
    v.x * v.x + v.y * v.y
  }

  /** The squared magnitude is never negative, and vanishes only at the zero
      vector. */
  lemma MagnitudeSquaredSign(v: Vec2f32)
    ensures MagnitudeSquared(v) >= 0.0
    ensures MagnitudeSquared(v) == 0.0 <==> v == Zero()
  {
    SumOfSquares(v.x, v.y, 0.0, 0.0);
  }

  /** `mag` is what `v.magnitude()` returns. */
  predicate IsMagnitude(v: Vec2f32, mag: real) {
    IsRoot(MagnitudeSquared(v), mag)
  }

  function Dot(a: Vec2f32, b: Vec2f32): real {
    a.x * b.x + a.y * b.y
  }

  function Add(a: Vec2f32, b: Vec2f32): Vec2f32 {
    Vec2f32(a.x + b.x, a.y + b.y)
  }

  function Sub(a: Vec2f32, b: Vec2f32): Vec2f32 {
    Vec2f32(a.x - b.x, a.y - b.y)
  }

  /** `v * scalar`. */
  function Scale(v: Vec2f32, scalar: real): Vec2f32 {
    Vec2f32(v.x * scalar, v.y * scalar)
  }

  /** `scalar * v`, a separate operator implementation in the source. */
  function ScaleLeft(scalar: real, v: Vec2f32): Vec2f32 {
    Vec2f32(v.x * scalar, v.y * scalar)
  }

  /** `v / scalar`; scaling the quotient back by `scalar` gives `v`. */
  function Div(v: Vec2f32, scalar: real): (r: Vec2f32)
    requires scalar != 0.0
    ensures Scale(r, scalar) == v
  {
    Vec2f32(v.x / scalar, v.y / scalar)
  }

  /** `v.normalized()`, where `mag` is `v.magnitude()`: a unit vector that
      points the same way as `v`. */
  function Normalized(v: Vec2f32, mag: real): (r: Vec2f32)
    requires v != Zero() && IsMagnitude(v, mag)
    ensures MagnitudeSquared(r) == 1.0
    ensures Scale(r, mag) == v
  {
    MagnitudeSquaredSign(v);
    RootOfPositive(MagnitudeSquared(v), mag);
    UnitQuotients(v.x, v.y, 0.0, 0.0, mag);
    Vec2f32(v.x / mag, v.y / mag)
  }

  lemma DotSymmetric(a: Vec2f32, b: Vec2f32)
    ensures Dot(a, b) == Dot(b, a)
  {
  }

  lemma DotSelfIsMagnitudeSquared(v: Vec2f32)
    ensures Dot(v, v) == MagnitudeSquared(v)
  {
  }

  /** Both multiplication operators give the same vector. The two operator
      implementations use the same per-component formula, so this holds by
      definition and only records that they agree. */
  lemma ScaleCommutes(v: Vec2f32, scalar: real)
    ensures Scale(v, scalar) == ScaleLeft(scalar, v)
  {
  }

  lemma AddSubInverse(v: Vec2f32, w: Vec2f32)
    ensures Sub(Add(v, w), w) == v
  {
  }

  /** `+` is commutative. */
  lemma AddCommutes(v: Vec2f32, w: Vec2f32)
    ensures Add(v, w) == Add(w, v)
  {
  }

  /** Scaling distributes over `+`. */
  lemma ScaleDistributes(v: Vec2f32, w: Vec2f32, scalar: real)
    ensures Scale(Add(v, w), scalar) == Add(Scale(v, scalar), Scale(w, scalar))
  {
  }

  /** The source's tests: `one + one`, `one - one`, `one * 2`, `2 * one` and
      `one / 2`. */
  lemma OneExamples()
    ensures Add(One(), One()) == Vec2f32(2.0, 2.0)
    ensures Sub(One(), One()) == Zero()
    ensures Scale(One(), 2.0) == ScaleLeft(2.0, One()) == Vec2f32(2.0, 2.0)
    ensures Div(One(), 2.0) == Vec2f32(0.5, 0.5)
  {
  }

  /** A `let mut` binding of a `Vec2f32`: the methods below are the ones the
      source gives `&mut self`, and update the fields one after the other. */
  class Vec2f32Var {
    var x: real
    var y: real

    function Value(): Vec2f32
      reads this
    {
      Vec2f32(x, y)
    }

    constructor (v: Vec2f32)
      ensures Value() == v
    {
      x, y := v.x, v.y;
    }

    /** `normalize`, where `mag` is `self.magnitude()`. */
    method Normalize(mag: real)
      requires Value() != Zero() && IsMagnitude(Value(), mag)
      modifies this
      ensures Value() == Normalized(old(Value()), mag)
    {
      MagnitudeSquaredSign(Value());
      RootOfPositive(MagnitudeSquared(Value()), mag);
      x := x / mag;
      y := y / mag;
    }

    method AddAssign(rhs: Vec2f32)
      modifies this
      ensures Value() == Add(old(Value()), rhs)
    {
      x := x + rhs.x;
      y := y + rhs.y;
    }

    method SubAssign(rhs: Vec2f32)
      modifies this
      ensures Value() == Sub(old(Value()), rhs)
    {
      x := x - rhs.x;
      y := y - rhs.y;
    }

    method MulAssign(scalar: real)
      modifies this
      ensures Value() == Scale(old(Value()), scalar)
    {
      x := x * scalar;
      y := y * scalar;
    }

    method DivAssign(scalar: real)
      requires scalar != 0.0
      modifies this
      ensures Value() == Div(old(Value()), scalar)
    {
      x := x / scalar;
      y := y / scalar;
    }
  }
}
