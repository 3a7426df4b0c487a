/** The 3D rotor of src/rot/rot3f64.rs: a scalar `s` and the bivector
    components `xy`, `yz`, `zx`.

    A rotor R turns a vector v into R v R~ (R~ is R with its bivector
    negated), with the geometric product of three-dimensional space. */
module Rot3f64 {
  import opened Scalars
  import V = Vec3f64
  import M4 = Mat4f64

  datatype Rot3f64 = Rot3f64(s: real, xy: real, yz: real, zx: real)

  /** The rotor that leaves every vector where it is. */
  function Identity(): Rot3f64 {
    Rot3f64(1.0, 0.0, 0.0, 0.0)
  }

  /** `s² + xy² + yz² + zx²`, the `mag_sqrd` of `normalize`. */
  function NormSquared(r: Rot3f64): real {
    r.s * r.s + r.xy * r.xy + r.yz * r.yz + r.zx * r.zx
  }

  /** The squared norm is never negative, and vanishes only at the zero rotor. */
  lemma NormSquaredSign(r: Rot3f64)
    ensures NormSquared(r) >= 0.0
    ensures NormSquared(r) == 0.0 <==> r == Rot3f64(0.0, 0.0, 0.0, 0.0)
  {
    SumOfSquares(r.s, r.xy, r.yz, r.zx);
  }

  predicate IsUnit(r: Rot3f64) {
    NormSquared(r) == 1.0
  }

  predicate IsUnitVector(v: V.Vec3f64) {
    V.MagnitudeSquared(v) == 1.0
  }

  /** The geometric product b a of two vectors: the scalar b·a and the
      bivector b∧a. */
  function VectorProduct(a: V.Vec3f64, b: V.Vec3f64): Rot3f64 {
    Rot3f64(b.x * a.x + b.y * a.y + b.z * a.z, b.x * a.y - b.y * a.x, b.y * a.z - b.z * a.y, b.z * a.x - b.x * a.z)
  }

  /** `new(a, b)`: the product b a of two unit vectors. It turns vectors by
      twice the angle from `a` to `b`. */
  function New(a: V.Vec3f64, b: V.Vec3f64): Rot3f64
    requires IsUnitVector(a) && IsUnitVector(b)
  {
    VectorProduct(a, b)
  }

  /** The window `-1.00001..-0.99999` of `a.dot(b)` for which `new_exact`
      treats `b` as the opposite of `a` (Rust's half-open range). */
  predicate NearlyOpposite(d: real) {
    -1.00001 <= d < -0.99999
  }

  /** `new_exact(a, b)`: a rotor that turns `a` onto `b` by the single angle
      between them. Outside the `NearlyOpposite` window it builds `new` from
      `a` and the unit bisector `(a + b) / |a + b|`, whose magnitude is given
      as `mag`; inside the window it uses `perp`, the value of
      `a.perpendicular()`, of which only orthogonality to `a` and unit length
      are assumed. */
  function NewExact(a: V.Vec3f64, b: V.Vec3f64, perp: V.Vec3f64, mag: real): Rot3f64
    requires IsUnitVector(a) && IsUnitVector(b)
    requires NearlyOpposite(V.Dot(a, b)) ==> V.Dot(perp, a) == 0.0 && IsUnitVector(perp)
    requires !NearlyOpposite(V.Dot(a, b)) ==> V.IsMagnitude(V.Add(a, b), mag)
  {
    if NearlyOpposite(V.Dot(a, b)) then
      New(a, perp)
    else
      BisectorIsUnit(a, b, mag);
      New(a, V.Div(V.Add(a, b), mag))
  }

  /** Unit vectors that are not nearly opposite have a non-zero sum, and
      dividing it by its magnitude gives a unit vector. */
  lemma BisectorIsUnit(a: V.Vec3f64, b: V.Vec3f64, mag: real)
    requires IsUnitVector(a) && IsUnitVector(b)
    requires !NearlyOpposite(V.Dot(a, b)) && V.IsMagnitude(V.Add(a, b), mag)
    ensures V.Add(a, b) != V.Zero() && mag != 0.0
    ensures IsUnitVector(V.Div(V.Add(a, b), mag))
  {
    if V.Add(a, b) == V.Zero() {
      OppositeDot(a, b);
      assert false;
    }
    V.MagnitudeSquaredSign(V.Add(a, b));
    RootOfPositive(V.MagnitudeSquared(V.Add(a, b)), mag);
    var h := V.Normalized(V.Add(a, b), mag);
  }

  /** Opposite vectors have the negated squared magnitude as dot product. */
  lemma OppositeDot(a: V.Vec3f64, b: V.Vec3f64)
    requires V.Add(a, b) == V.Zero()
    ensures V.Dot(a, b) == -V.MagnitudeSquared(a)
  {
    assert b.x == -a.x && b.y == -a.y && b.z == -a.z;
    assert a.x * b.x == -(a.x * a.x);
    assert a.y * b.y == -(a.y * a.y);
    assert a.z * b.z == -(a.z * a.z);
  }

  /** `inverted`: the reverse rotor, with the same scalar and the bivector
      negated. */
  function Inverted(r: Rot3f64): Rot3f64 {
    Rot3f64(r.s, -r.xy, -r.yz, -r.zx)
  }

  /** The four temporaries `tx, ty, tz, txyz` of `rotate_vec`: the product
      R v, a vector part and a trivector part. */
  datatype Half = Half(x: real, y: real, z: real, xyz: real)

  function LeftProduct(r: Rot3f64, v: V.Vec3f64): Half {
    Half(r.s * v.x + r.xy * v.y - r.zx * v.z,
         r.s * v.y - r.xy * v.x + r.yz * v.z,
         r.s * v.z - r.yz * v.y + r.zx * v.x,
         r.xy * v.z + r.yz * v.x + r.zx * v.y)
  }

  /** The vector part of (R v) R~, the second half of `rotate_vec`. */
  function RightProduct(t: Half, r: Rot3f64): V.Vec3f64 {
    V.Vec3f64(t.x * r.s + t.y * r.xy - t.z * r.zx + t.xyz * r.yz,
              t.y * r.s - t.x * r.xy + t.z * r.yz + t.xyz * r.zx,
              t.z * r.s + t.x * r.zx - t.y * r.yz + t.xyz * r.xy)
  }

  /** `rotated_vec(v)`: R v R~. */
  function RotatedVec(r: Rot3f64, v: V.Vec3f64): V.Vec3f64 {
    RightProduct(LeftProduct(r, v), r)
  }

  /** `appended(r)`: the geometric product self r, computed from the old
      components before any is overwritten. */
  function Appended(a: Rot3f64, r: Rot3f64): Rot3f64 {
    Rot3f64(a.s * r.s - a.xy * r.xy - a.yz * r.yz - a.zx * r.zx,
            a.s * r.xy + a.xy * r.s - a.yz * r.zx + a.zx * r.yz,
            a.s * r.yz + a.yz * r.s + a.xy * r.zx - a.zx * r.xy,
            a.s * r.zx + a.zx * r.s - a.xy * r.yz + a.yz * r.xy)
  }

  /** What `normalize` leaves in the rotor, where `mag` is the square root of
      its `NormSquared`: a unit rotor. */
  function Normalized(r: Rot3f64, mag: real): (q: Rot3f64)
    requires r != Rot3f64(0.0, 0.0, 0.0, 0.0) && IsRoot(NormSquared(r), mag)
    ensures IsUnit(q)
  {
    NormSquaredSign(r);
    RootOfPositive(NormSquared(r), mag);
    UnitQuotients(r.s, r.xy, r.yz, r.zx, mag);
    Rot3f64(r.s / mag, r.xy / mag, r.yz / mag, r.zx / mag)
  }

  /** `rotation_mat`: the images of the three axes are the columns of the
      upper-left block of a homogeneous 4x4 matrix whose last row and column
      are those of the identity. */
  function RotationMat(r: Rot3f64): M4.Mat4f64 {
    var newX := RotatedVec(r, V.Vec3f64(1.0, 0.0, 0.0));
    var newY := RotatedVec(r, V.Vec3f64(0.0, 1.0, 0.0));
    var newZ := RotatedVec(r, V.Vec3f64(0.0, 0.0, 1.0));
    M4.Mat4f64([[newX.x, newY.x, newZ.x, 0.0],
                [newX.y, newY.y, newZ.y, 0.0],
                [newX.z, newY.z, newZ.z, 0.0],
                [0.0, 0.0, 0.0, 1.0]])
  }

  // ---------------------------------------------------------------------
  // The geometric products behind `rotate_vec` and `append`. They are not
  // operations of the source; the laws about it are proved through them.

  /** a p: a rotor times a vector-plus-trivector value. */
  function Times(a: Rot3f64, p: Half): Half {
    Half(a.s * p.x + a.xy * p.y - a.yz * p.xyz - a.zx * p.z,
         a.s * p.y - a.xy * p.x + a.yz * p.z - a.zx * p.xyz,
         a.s * p.z - a.xy * p.xyz - a.yz * p.y + a.zx * p.x,
         a.s * p.xyz + a.xy * p.z + a.yz * p.x + a.zx * p.y)
  }

  /** p r~: a vector-plus-trivector value times the reverse of a rotor. Its
      vector part is `RightProduct(p, r)`. */
  function TimesReverse(p: Half, r: Rot3f64): Half {
    Half(p.x * r.s + p.y * r.xy - p.z * r.zx + p.xyz * r.yz,
         p.y * r.s - p.x * r.xy + p.z * r.yz + p.xyz * r.zx,
         p.z * r.s + p.x * r.zx - p.y * r.yz + p.xyz * r.xy,
         p.xyz * r.s - p.x * r.yz - p.y * r.zx - p.z * r.xy)
  }

  /** The rotor with no scalar part whose bivector is dual to `n`
      (e1 to yz, e2 to zx, e3 to xy). */
  function Dual(n: V.Vec3f64): Rot3f64 {
    Rot3f64(0.0, n.z, n.x, n.y)
  }

  /** The vector dual to the bivector part of `r`; `Axis(Dual(n)) == n`. */
  function Axis(r: Rot3f64): V.Vec3f64 {
    V.Vec3f64(r.yz, r.zx, r.xy)
  }

  /** n w n: for a unit `n`, the half turn of `w` about the axis `n`. */
  function HalfTurn(n: V.Vec3f64, w: V.Vec3f64): V.Vec3f64 {
    V.Sub(V.Scale(n, 2.0 * V.Dot(n, w)), V.Scale(w, V.MagnitudeSquared(n)))
  }

  /** A `let mut` binding of a rotor: the methods below are the ones the
      source gives `&mut self`. */
  class Rot3f64Var {
    var s: real
    var xy: real
    var yz: real
    var zx: real

    function Value(): Rot3f64
      reads this
    {
      Rot3f64(s, xy, yz, zx)
    }

    constructor (r: Rot3f64)
      ensures Value() == r
    {
      s, xy, yz, zx := r.s, r.xy, r.yz, r.zx;
    }

    /** `invert`: negates the bivector in place. */
    method Invert()
      modifies this
      ensures Value() == Inverted(old(Value()))
    {
      xy := -xy;
      yz := -yz;
      zx := -zx;
    }

    /** `rotate_vec`: computes R v into four temporaries, then overwrites
        `v` with (R v) R~. */
    method RotateVec(v: V.Vec3f64Var)
      modifies v
      ensures v.Value() == RotatedVec(Value(), old(v.Value()))
    {
      var tx := s * v.x + xy * v.y - zx * v.z;
      var ty := s * v.y - xy * v.x + yz * v.z;
      var tz := s * v.z - yz * v.y + zx * v.x;
      var txyz := xy * v.z + yz * v.x + zx * v.y;
      ghost var t := Half(tx, ty, tz, txyz);
      assert t == LeftProduct(Value(), v.Value());

      v.x := tx * s + ty * xy - tz * zx + txyz * yz;
      v.y := ty * s - tx * xy + tz * yz + txyz * zx;
      v.z := tz * s + tx * zx - ty * yz + txyz * xy;
      assert v.Value() == RightProduct(t, Value());
    }

    /** `append`: stages the product in four temporaries so that every
        component is computed from the old ones, then stores them. */
    method Append(r: Rot3f64)
      modifies this
      ensures Value() == Appended(old(Value()), r)
    {
      var s' := s * r.s - xy * r.xy - yz * r.yz - zx * r.zx;
      var xy' := s * r.xy + xy * r.s - yz * r.zx + zx * r.yz;
      var yz' := s * r.yz + yz * r.s + xy * r.zx - zx * r.xy;
      var zx' := s * r.zx + zx * r.s - xy * r.yz + yz * r.xy;
      assert Rot3f64(s', xy', yz', zx') == Appended(Value(), r);

      s := s';
      xy := xy';
      yz := yz';
      zx := zx';
    }

    /** `normalize`, where `mag` is the square root of `mag_sqrd`. */
    method Normalize(mag: real)
      requires Value() != Rot3f64(0.0, 0.0, 0.0, 0.0) && IsRoot(NormSquared(Value()), mag)
      modifies this
      ensures Value() == Normalized(old(Value()), mag)
      ensures IsUnit(Value())
    {
      NormSquaredSign(Value());
      RootOfPositive(NormSquared(Value()), mag);
      s := s / mag;
      xy := xy / mag;
      yz := yz / mag;
      zx := zx / mag;
    }
  }
}
