/** The two-component vector of src/vec/vec2f64.rs, which keeps its
    components in an array `coords` and reads them through indexing. */
module Vec2f64 {
  import opened Scalars

  /** The type of `[f64; 2]`. */
  type Coords2 = s: seq<real> | |s| == 2 witness [0.0, 0.0]

  /** `new(coords)` is the constructor. */
  datatype Vec2f64 = Vec2f64(coords: Coords2)

  function Zero(): Vec2f64 {
    Vec2f64([0.0, 0.0])
  }

  function Ones(): Vec2f64 {
    Vec2f64([1.0, 1.0])
  }

  /** `v[i]`; an index of 2 or more panics in the source. */
  function Index(v: Vec2f64, i: nat): real
    requires i < 2
  {
    v.coords[i]
  }

  /** `mag_squared`, the radicand of `mag`. */
  function MagSquared(v: Vec2f64): real {
    v.coords[0] * v.coords[0] + v.coords[1] * v.coords[1]
  }

  /** The squared magnitude is never negative, and vanishes only at the zero
      vector. */
  lemma MagSquaredSign(v: Vec2f64)
    ensures MagSquared(v) >= 0.0
    ensures MagSquared(v) == 0.0 <==> v == Zero()
  {
    SumOfSquares(v.coords[0], v.coords[1], 0.0, 0.0);
    if MagSquared(v) == 0.0 {
      assert v.coords == [0.0, 0.0];
    }
  }

  /** `mag` is what `v.mag()` returns. */
  predicate IsMag(v: Vec2f64, mag: real) {
    IsRoot(MagSquared(v), mag)
  }

  function Dot(a: Vec2f64, b: Vec2f64): real {
    a.coords[0] * b.coords[0] + a.coords[1] * b.coords[1]
  }

  function Add(a: Vec2f64, b: Vec2f64): Vec2f64 {
    Vec2f64([a.coords[0] + b.coords[0], a.coords[1] + b.coords[1]])
  }

  function Sub(a: Vec2f64, b: Vec2f64): Vec2f64 {
    Vec2f64([a.coords[0] - b.coords[0], a.coords[1] - b.coords[1]])
  }

  /** `scalar * v`: every component multiplied by `scalar`. */
  function ScaleLeft(scalar: real, v: Vec2f64): Vec2f64 {
    Vec2f64([v.coords[0] * scalar, v.coords[1] * scalar])
  }

  /** `v * scalar`, which the source computes as `scalar * v`. */
  function Scale(v: Vec2f64, scalar: real): Vec2f64 {
    ScaleLeft(scalar, v)
  }

  /** `v / scalar`; scaling the quotient back by `scalar` gives `v`. */
  function Div(v: Vec2f64, scalar: real): (r: Vec2f64)
    requires scalar != 0.0
    ensures Scale(r, scalar) == v
  {
    var r := Vec2f64([v.coords[0] / scalar, v.coords[1] / scalar]);
    QuotientTimesDivisor(v.coords[0], scalar);
    QuotientTimesDivisor(v.coords[1], scalar);
    assert Scale(r, scalar).coords[0] == v.coords[0];
    assert Scale(r, scalar).coords[1] == v.coords[1];
    r
  }

  /** `v.normed()`, where `mag` is `v.mag()`: a unit vector pointing the
      same way as `v`. */
  function Normed(v: Vec2f64, mag: real): (r: Vec2f64)
    requires v != Zero() && IsMag(v, mag)
    ensures MagSquared(r) == 1.0
    ensures Scale(r, mag) == v
  {
    MagSquaredSign(v);
    RootOfPositive(MagSquared(v), mag);
    UnitQuotients(v.coords[0], v.coords[1], 0.0, 0.0, mag);
    Div(v, mag)
  }

  lemma DotSymmetric(a: Vec2f64, b: Vec2f64)
    ensures Dot(a, b) == Dot(b, a)
  {
  }

  lemma DotSelfIsMagSquared(v: Vec2f64)
    ensures Dot(v, v) == MagSquared(v)
  {
  }

  /** Both multiplication operators give the same vector. The two operator
      implementations use the same per-component formula, so this holds by
      definition and only records that they agree. */
  lemma ScaleCommutes(v: Vec2f64, scalar: real)
    ensures Scale(v, scalar) == ScaleLeft(scalar, v)
  {
  }

  lemma AddSubInverse(v: Vec2f64, w: Vec2f64)
    ensures Sub(Add(v, w), w) == v
  {
  }

  /** `+` is commutative. */
  lemma AddCommutes(v: Vec2f64, w: Vec2f64)
    ensures Add(v, w) == Add(w, v)
  {
  }

  /** Scaling distributes over `+`. */
  lemma ScaleDistributes(v: Vec2f64, w: Vec2f64, scalar: real)
    ensures Scale(Add(v, w), scalar) == Add(Scale(v, scalar), Scale(w, scalar))
  {
    Distribute(v.coords[0], w.coords[0], Add(v, w).coords[0], scalar);
    Distribute(v.coords[1], w.coords[1], Add(v, w).coords[1], scalar);
    assert Scale(Add(v, w), scalar).coords[0] == Add(Scale(v, scalar), Scale(w, scalar)).coords[0];
    assert Scale(Add(v, w), scalar).coords[1] == Add(Scale(v, scalar), Scale(w, scalar)).coords[1];
    assert Scale(Add(v, w), scalar).coords == Add(Scale(v, scalar), Scale(w, scalar)).coords;
  }

  /** The source's tests of `dot` and `mag_squared`. */
  lemma DotExamples(v: Vec2f64)
    requires v == Vec2f64([4.0, 7.0])
    ensures Dot(Zero(), v) == 0.0 && Dot(v, Zero()) == 0.0
    ensures Dot(Ones(), v) == 11.0 && Dot(v, Ones()) == 11.0
    ensures Dot(v, v) == 65.0 && MagSquared(v) == 65.0
    ensures MagSquared(Zero()) == 0.0 && MagSquared(Ones()) == 2.0
  {
  }

  /** The source's tests of the scalar operators. */
  lemma ScalarExamples(v: Vec2f64)
    requires v == Vec2f64([4.0, 7.0])
    ensures ScaleLeft(3.0, v) == Scale(v, 3.0) == Vec2f64([12.0, 21.0])
    ensures ScaleLeft(3.0, Zero()) == Scale(Zero(), 3.0) == Zero()
    ensures ScaleLeft(3.0, Ones()) == Scale(Ones(), 3.0) == Vec2f64([3.0, 3.0])
    ensures Div(v, 3.0) == Vec2f64([4.0 / 3.0, 7.0 / 3.0])
    ensures Div(Ones(), 3.0) == Vec2f64([1.0 / 3.0, 1.0 / 3.0])
    ensures Div(Zero(), 3.0) == Zero()
  {
  }

  /** The source's tests of `+` and `-`. */
  lemma AddSubExamples(v: Vec2f64, w: Vec2f64)
    requires v == Vec2f64([4.0, 7.0]) && w == Vec2f64([-2.0, 10.0])
    ensures Add(v, w) == Vec2f64([2.0, 17.0])
    ensures Sub(v, w) == Vec2f64([6.0, -3.0])
  {
  }

  /** A `let mut` binding of a `Vec2f64`: its `coords` array and the
      `&mut self` methods that write into it. */
  class Vec2f64Var {
    const coords: array<real>

    predicate Valid()
      reads this
    {
      coords.Length == 2
    }

    function Value(): Vec2f64
      requires Valid()
      reads this, coords
    {
      Vec2f64(coords[..])
    }

    constructor (v: Vec2f64)
      ensures Valid() && fresh(coords) && Value() == v
    {
      coords := new real[2] [v.coords[0], v.coords[1]];
      new;
      assert coords[..] == v.coords;
    }

    /** `v[i] = x`, through `IndexMut`. */
    method Set(i: nat, x: real)
      requires Valid() && i < 2
      modifies coords
      ensures Valid() && Value() == Vec2f64(old(Value()).coords[i := x])
    {
      coords[i] := x;
    }

    /** `*self = *self + rhs`. */
    method AddAssign(rhs: Vec2f64)
      requires Valid()
      modifies coords
      ensures Valid() && Value() == Add(old(Value()), rhs)
    {
      var sum := Add(Value(), rhs);
      coords[0], coords[1] := sum.coords[0], sum.coords[1];
      assert coords[..] == sum.coords;
    }

    /** `*self = *self - rhs`. */
    method SubAssign(rhs: Vec2f64)
      requires Valid()
      modifies coords
      ensures Valid() && Value() == Sub(old(Value()), rhs)
    {
      var diff := Sub(Value(), rhs);
      coords[0], coords[1] := diff.coords[0], diff.coords[1];
      assert coords[..] == diff.coords;
    }

    /** `*= scalar`, component by component. */
    method MulAssign(scalar: real)
      requires Valid()
      modifies coords
      ensures Valid() && Value() == Scale(old(Value()), scalar)
    {
      var product := Scale(Value(), scalar);
      coords[0], coords[1] := product.coords[0], product.coords[1];
      assert coords[..] == product.coords;
    }

    /** `/= scalar`, component by component. */
    method DivAssign(scalar: real)
      requires Valid() && scalar != 0.0
      modifies coords
      ensures Valid() && Value() == Div(old(Value()), scalar)
    {
      var quotient := Div(Value(), scalar);
      coords[0], coords[1] := quotient.coords[0], quotient.coords[1];
      assert coords[..] == quotient.coords;
    }

    /** `norm`: divides by `mag`, which is `self.mag()`. */
    method Norm(mag: real)
      requires Valid() && Value() != Zero() && IsMag(Value(), mag)
      modifies coords
      ensures Valid() && Value() == Normed(old(Value()), mag)
      ensures MagSquared(Value()) == 1.0
    {
      MagSquaredSign(Value());
      RootOfPositive(MagSquared(Value()), mag);
      DivAssign(mag);
    }
  }
}
