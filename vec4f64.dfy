/** The four-component vector of src/vec/vec4f64.rs, which keeps its
    components in an array `coords` and reads them through indexing. */
module Vec4f64 {
  import opened Scalars

  /** The type of `[f64; 4]`. */
  type Coords4 = s: seq<real> | |s| == 4 witness [0.0, 0.0, 0.0, 0.0]

  /** `new(coords)` is the constructor. */
  datatype Vec4f64 = Vec4f64(coords: Coords4)

  function Zero(): Vec4f64 {
    Vec4f64([0.0, 0.0, 0.0, 0.0])
  }

  function Ones(): Vec4f64 {
    Vec4f64([1.0, 1.0, 1.0, 1.0])
  }

  /** `v[i]`; an index of 4 or more panics in the source. */
  function Index(v: Vec4f64, i: nat): real
    requires i < 4
  {
    v.coords[i]
  }

  /** `mag_squared`, the radicand of `mag`. */
  function MagSquared(v: Vec4f64): real {
    v.coords[0] * v.coords[0] + v.coords[1] * v.coords[1] + v.coords[2] * v.coords[2] + v.coords[3] * v.coords[3]
  }

  /** The squared magnitude is never negative, and vanishes only at the zero
      vector. */
  lemma MagSquaredSign(v: Vec4f64)
    ensures MagSquared(v) >= 0.0
    ensures MagSquared(v) == 0.0 <==> v == Zero()
  {
    SumOfSquares(v.coords[0], v.coords[1], v.coords[2], v.coords[3]);
    if MagSquared(v) == 0.0 {
      assert v.coords == [0.0, 0.0, 0.0, 0.0];
    }
  }

  /** `mag` is what `v.mag()` returns. */
  predicate IsMag(v: Vec4f64, mag: real) {
    IsRoot(MagSquared(v), mag)
  }

  function Dot(a: Vec4f64, b: Vec4f64): real {
    a.coords[0] * b.coords[0] + a.coords[1] * b.coords[1] + a.coords[2] * b.coords[2] + a.coords[3] * b.coords[3]
  }

  function Add(a: Vec4f64, b: Vec4f64): Vec4f64 {
    Vec4f64([a.coords[0] + b.coords[0], a.coords[1] + b.coords[1], a.coords[2] + b.coords[2], a.coords[3] + b.coords[3]])
  }

  function Sub(a: Vec4f64, b: Vec4f64): Vec4f64 {
    Vec4f64([a.coords[0] - b.coords[0], a.coords[1] - b.coords[1], a.coords[2] - b.coords[2], a.coords[3] - b.coords[3]])
  }

  /** `scalar * v`: every component multiplied by `scalar`. */
  function ScaleLeft(scalar: real, v: Vec4f64): Vec4f64 {
    Vec4f64([v.coords[0] * scalar, v.coords[1] * scalar, v.coords[2] * scalar, v.coords[3] * scalar])
  }

  /** `v * scalar`, which the source computes as `scalar * v`. */
  function Scale(v: Vec4f64, scalar: real): Vec4f64 {
    ScaleLeft(scalar, v)
  }

  /** `v / scalar`; scaling the quotient back by `scalar` gives `v`. */
  function Div(v: Vec4f64, scalar: real): (r: Vec4f64)
    requires scalar != 0.0
    ensures Scale(r, scalar) == v
  {
    var r := Vec4f64([v.coords[0] / scalar, v.coords[1] / scalar, v.coords[2] / scalar, v.coords[3] / scalar]);
    QuotientTimesDivisor(v.coords[0], scalar);
    QuotientTimesDivisor(v.coords[1], scalar);
    QuotientTimesDivisor(v.coords[2], scalar);
    QuotientTimesDivisor(v.coords[3], scalar);
    assert Scale(r, scalar).coords[0] == v.coords[0];
    assert Scale(r, scalar).coords[1] == v.coords[1];
    assert Scale(r, scalar).coords[2] == v.coords[2];
    assert Scale(r, scalar).coords[3] == v.coords[3];
    r
  }

  /** `v.normed()`, where `mag` is `v.mag()`: a unit vector pointing the
      same way as `v`. */
  function Normed(v: Vec4f64, mag: real): (r: Vec4f64)
    requires v != Zero() && IsMag(v, mag)
    ensures MagSquared(r) == 1.0
    ensures Scale(r, mag) == v
  {
    MagSquaredSign(v);
    RootOfPositive(MagSquared(v), mag);
    UnitQuotients(v.coords[0], v.coords[1], v.coords[2], v.coords[3], mag);
    Div(v, mag)
  }

  lemma DotSymmetric(a: Vec4f64, b: Vec4f64)
    ensures Dot(a, b) == Dot(b, a)
  {
  }

  lemma DotSelfIsMagSquared(v: Vec4f64)
    ensures Dot(v, v) == MagSquared(v)
  {
  }

  /** Both multiplication operators give the same vector. The two operator
      implementations use the same per-component formula, so this holds by
      definition and only records that they agree. */
  lemma ScaleCommutes(v: Vec4f64, scalar: real)
    ensures Scale(v, scalar) == ScaleLeft(scalar, v)
  {
  }

  lemma AddSubInverse(v: Vec4f64, w: Vec4f64)
    ensures Sub(Add(v, w), w) == v
  {
  }

  /** `+` is commutative. */
  lemma AddCommutes(v: Vec4f64, w: Vec4f64)
    ensures Add(v, w) == Add(w, v)
  {
  }

  /** Scaling distributes over `+`. */
  lemma ScaleDistributes(v: Vec4f64, w: Vec4f64, scalar: real)
    ensures Scale(Add(v, w), scalar) == Add(Scale(v, scalar), Scale(w, scalar))
  {
    Distribute(v.coords[0], w.coords[0], Add(v, w).coords[0], scalar);
    Distribute(v.coords[1], w.coords[1], Add(v, w).coords[1], scalar);
    Distribute(v.coords[2], w.coords[2], Add(v, w).coords[2], scalar);
    Distribute(v.coords[3], w.coords[3], Add(v, w).coords[3], scalar);
    assert Scale(Add(v, w), scalar).coords[0] == Add(Scale(v, scalar), Scale(w, scalar)).coords[0];
    assert Scale(Add(v, w), scalar).coords[1] == Add(Scale(v, scalar), Scale(w, scalar)).coords[1];
    assert Scale(Add(v, w), scalar).coords[2] == Add(Scale(v, scalar), Scale(w, scalar)).coords[2];
    assert Scale(Add(v, w), scalar).coords[3] == Add(Scale(v, scalar), Scale(w, scalar)).coords[3];
    assert Scale(Add(v, w), scalar).coords == Add(Scale(v, scalar), Scale(w, scalar)).coords;
  }

  /** The source's tests of `dot` and `mag_squared`. */
  lemma DotExamples(v: Vec4f64)
    requires v == Vec4f64([4.0, 7.0, 5.0, 2.0])
    ensures Dot(Zero(), v) == 0.0 && Dot(v, Zero()) == 0.0
    ensures Dot(Ones(), v) == 18.0 && Dot(v, Ones()) == 18.0
    ensures Dot(v, v) == 94.0 && MagSquared(v) == 94.0
    ensures MagSquared(Zero()) == 0.0 && MagSquared(Ones()) == 4.0
  {
  }

  /** The source's tests of the scalar operators. */
  lemma ScalarExamples(v: Vec4f64)
    requires v == Vec4f64([4.0, 7.0, 5.0, 2.0])
    ensures ScaleLeft(3.0, v) == Scale(v, 3.0) == Vec4f64([12.0, 21.0, 15.0, 6.0])
    ensures ScaleLeft(3.0, Zero()) == Scale(Zero(), 3.0) == Zero()
    ensures ScaleLeft(3.0, Ones()) == Scale(Ones(), 3.0) == Vec4f64([3.0, 3.0, 3.0, 3.0])
    ensures Div(v, 3.0) == Vec4f64([4.0 / 3.0, 7.0 / 3.0, 5.0 / 3.0, 2.0 / 3.0])
    ensures Div(Ones(), 3.0) == Vec4f64([1.0 / 3.0, 1.0 / 3.0, 1.0 / 3.0, 1.0 / 3.0])
    ensures Div(Zero(), 3.0) == Zero()
  {
  }

  /** The source's tests of `+` and `-`. */
  lemma AddSubExamples(v: Vec4f64, w: Vec4f64)
    requires v == Vec4f64([4.0, 7.0, 5.0, 2.0]) && w == Vec4f64([-2.0, 10.0, 2.0, 3.0])
    ensures Add(v, w) == Vec4f64([2.0, 17.0, 7.0, 5.0])
    ensures Sub(v, w) == Vec4f64([6.0, -3.0, 3.0, -1.0])
  {
  }

  /** A `let mut` binding of a `Vec4f64`: its `coords` array and the
      `&mut self` methods that write into it. */
  class Vec4f64Var {
    const coords: array<real>

    predicate Valid()
      reads this
    {
      coords.Length == 4
    }

    function Value(): Vec4f64
      requires Valid()
      reads this, coords
    {
      Vec4f64(coords[..])
    }

    constructor (v: Vec4f64)
      ensures Valid() && fresh(coords) && Value() == v
    {
      coords := new real[4] [v.coords[0], v.coords[1], v.coords[2], v.coords[3]];
      new;
      assert coords[..] == v.coords;
    }

    /** `v[i] = x`, through `IndexMut`. */
    method Set(i: nat, x: real)
      requires Valid() && i < 4
      modifies coords
      ensures Valid() && Value() == Vec4f64(old(Value()).coords[i := x])
    {
      coords[i] := x;
    }

    /** `*self = *self + rhs`. */
    method AddAssign(rhs: Vec4f64)
      requires Valid()
      modifies coords
      ensures Valid() && Value() == Add(old(Value()), rhs)
    {
      var sum := Add(Value(), rhs);
      coords[0], coords[1], coords[2], coords[3] := sum.coords[0], sum.coords[1], sum.coords[2], sum.coords[3];
      assert coords[..] == sum.coords;
    }

    /** `*self = *self - rhs`. */
    method SubAssign(rhs: Vec4f64)
      requires Valid()
      modifies coords
      ensures Valid() && Value() == Sub(old(Value()), rhs)
    {
      var diff := Sub(Value(), rhs);
      coords[0], coords[1], coords[2], coords[3] := diff.coords[0], diff.coords[1], diff.coords[2], diff.coords[3];
      assert coords[..] == diff.coords;
    }

    /** `*= scalar`, component by component. */
    method MulAssign(scalar: real)
      requires Valid()
      modifies coords
      ensures Valid() && Value() == Scale(old(Value()), scalar)
    {
      var product := Scale(Value(), scalar);
      coords[0], coords[1], coords[2], coords[3] := product.coords[0], product.coords[1], product.coords[2], product.coords[3];
      assert coords[..] == product.coords;
    }

    /** `/= scalar`, component by component. */
    method DivAssign(scalar: real)
      requires Valid() && scalar != 0.0
      modifies coords
      ensures Valid() && Value() == Div(old(Value()), scalar)
    {
      var quotient := Div(Value(), scalar);
      coords[0], coords[1], coords[2], coords[3] := quotient.coords[0], quotient.coords[1], quotient.coords[2], quotient.coords[3];
      assert coords[..] == quotient.coords;
    }

    /** `norm`: divides by `mag`, which is `self.mag()`. */
    method Norm(mag: real)
      requires Valid() && Value() != Zero() && IsMag(Value(), mag)
      modifies coords
      ensures Valid() && Value() == Normed(old(Value()), mag)
      ensures MagSquared(Value()) == 1.0
    {
      MagSquaredSign(Value());
      RootOfPositive(MagSquared(Value()), mag);
      DivAssign(mag);
    }
  }
}
