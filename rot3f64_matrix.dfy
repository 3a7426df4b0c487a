/** `rotation_mat` of src/rot/rot3f64.rs: the rotor as a homogeneous 4x4
    matrix, and the laws that tie it to `rotated_vec`, to the identity and to
    `appended`. */
module Rot3f64Matrix {
  import opened Rot3f64
  import V = Vec3f64
  import V4 = Vec4f64
  import M4 = Mat4f64
  import Laws = Rot3f64Laws
  import Id = Rot3f64MatrixIdentities

  /** The point or direction `v` in homogeneous coordinates, with last
      coordinate `t`. */
  function Homogeneous(v: V.Vec3f64, t: real): V4.Vec4f64 {
    V4.Vec4f64([v.x, v.y, v.z, t])
  }

  lemma RotatedX(r: Rot3f64, v: V.Vec3f64)
    ensures RotatedVec(r, v).x == (r.s * v.x + r.xy * v.y - r.zx * v.z) * r.s + (r.s * v.y - r.xy * v.x + r.yz * v.z) * r.xy - (r.s * v.z - r.yz * v.y + r.zx * v.x) * r.zx + (r.xy * v.z + r.yz * v.x + r.zx * v.y) * r.yz
  {
  }

  lemma RotatedXOfXAxis(r: Rot3f64)
    ensures RotatedVec(r, V.Vec3f64(1.0, 0.0, 0.0)).x == (r.s * 1.0 + r.xy * 0.0 - r.zx * 0.0) * r.s + (r.s * 0.0 - r.xy * 1.0 + r.yz * 0.0) * r.xy - (r.s * 0.0 - r.yz * 0.0 + r.zx * 1.0) * r.zx + (r.xy * 0.0 + r.yz * 1.0 + r.zx * 0.0) * r.yz
  {
  }

  lemma RotatedXOfYAxis(r: Rot3f64)
    ensures RotatedVec(r, V.Vec3f64(0.0, 1.0, 0.0)).x == (r.s * 0.0 + r.xy * 1.0 - r.zx * 0.0) * r.s + (r.s * 1.0 - r.xy * 0.0 + r.yz * 0.0) * r.xy - (r.s * 0.0 - r.yz * 1.0 + r.zx * 0.0) * r.zx + (r.xy * 0.0 + r.yz * 0.0 + r.zx * 1.0) * r.yz
  {
  }

  lemma RotatedXOfZAxis(r: Rot3f64)
    ensures RotatedVec(r, V.Vec3f64(0.0, 0.0, 1.0)).x == (r.s * 0.0 + r.xy * 0.0 - r.zx * 1.0) * r.s + (r.s * 0.0 - r.xy * 0.0 + r.yz * 1.0) * r.xy - (r.s * 1.0 - r.yz * 0.0 + r.zx * 0.0) * r.zx + (r.xy * 1.0 + r.yz * 0.0 + r.zx * 0.0) * r.yz
  {
  }

  lemma MatrixComponentX(r: Rot3f64, v: V.Vec3f64, t: real)
    ensures M4.MulVec(RotationMat(r), Homogeneous(v, t)).coords[0] == ((r.s * 1.0 + r.xy * 0.0 - r.zx * 0.0) * r.s + (r.s * 0.0 - r.xy * 1.0 + r.yz * 0.0) * r.xy - (r.s * 0.0 - r.yz * 0.0 + r.zx * 1.0) * r.zx + (r.xy * 0.0 + r.yz * 1.0 + r.zx * 0.0) * r.yz) * v.x + ((r.s * 0.0 + r.xy * 1.0 - r.zx * 0.0) * r.s + (r.s * 1.0 - r.xy * 0.0 + r.yz * 0.0) * r.xy - (r.s * 0.0 - r.yz * 1.0 + r.zx * 0.0) * r.zx + (r.xy * 0.0 + r.yz * 0.0 + r.zx * 1.0) * r.yz) * v.y + ((r.s * 0.0 + r.xy * 0.0 - r.zx * 1.0) * r.s + (r.s * 0.0 - r.xy * 0.0 + r.yz * 1.0) * r.xy - (r.s * 1.0 - r.yz * 0.0 + r.zx * 0.0) * r.zx + (r.xy * 1.0 + r.yz * 0.0 + r.zx * 0.0) * r.yz) * v.z + 0.0 * t
  {
    M4.MulVecComponent0(RotationMat(r), Homogeneous(v, t));
    RotatedXOfXAxis(r);
    RotatedXOfYAxis(r);
    RotatedXOfZAxis(r);
  }

  lemma AppliedX(r: Rot3f64, v: V.Vec3f64, t: real)
    ensures M4.MulVec(RotationMat(r), Homogeneous(v, t)).coords[0] == RotatedVec(r, v).x
  {
    MatrixComponentX(r, v, t);
    RotatedX(r, v);
    Id.AppliedX(r.s, r.xy, r.yz, r.zx, v.x, v.y, v.z, t);
  }

  lemma RotatedY(r: Rot3f64, v: V.Vec3f64)
    ensures RotatedVec(r, v).y == (r.s * v.y - r.xy * v.x + r.yz * v.z) * r.s - (r.s * v.x + r.xy * v.y - r.zx * v.z) * r.xy + (r.s * v.z - r.yz * v.y + r.zx * v.x) * r.yz + (r.xy * v.z + r.yz * v.x + r.zx * v.y) * r.zx
  {
  }

  lemma RotatedYOfXAxis(r: Rot3f64)
    ensures RotatedVec(r, V.Vec3f64(1.0, 0.0, 0.0)).y == (r.s * 0.0 - r.xy * 1.0 + r.yz * 0.0) * r.s - (r.s * 1.0 + r.xy * 0.0 - r.zx * 0.0) * r.xy + (r.s * 0.0 - r.yz * 0.0 + r.zx * 1.0) * r.yz + (r.xy * 0.0 + r.yz * 1.0 + r.zx * 0.0) * r.zx
  {
  }

  lemma RotatedYOfYAxis(r: Rot3f64)
    ensures RotatedVec(r, V.Vec3f64(0.0, 1.0, 0.0)).y == (r.s * 1.0 - r.xy * 0.0 + r.yz * 0.0) * r.s - (r.s * 0.0 + r.xy * 1.0 - r.zx * 0.0) * r.xy + (r.s * 0.0 - r.yz * 1.0 + r.zx * 0.0) * r.yz + (r.xy * 0.0 + r.yz * 0.0 + r.zx * 1.0) * r.zx
  {
  }

  lemma RotatedYOfZAxis(r: Rot3f64)
    ensures RotatedVec(r, V.Vec3f64(0.0, 0.0, 1.0)).y == (r.s * 0.0 - r.xy * 0.0 + r.yz * 1.0) * r.s - (r.s * 0.0 + r.xy * 0.0 - r.zx * 1.0) * r.xy + (r.s * 1.0 - r.yz * 0.0 + r.zx * 0.0) * r.yz + (r.xy * 1.0 + r.yz * 0.0 + r.zx * 0.0) * r.zx
  {
  }

  lemma MatrixComponentY(r: Rot3f64, v: V.Vec3f64, t: real)
    ensures M4.MulVec(RotationMat(r), Homogeneous(v, t)).coords[1] == ((r.s * 0.0 - r.xy * 1.0 + r.yz * 0.0) * r.s - (r.s * 1.0 + r.xy * 0.0 - r.zx * 0.0) * r.xy + (r.s * 0.0 - r.yz * 0.0 + r.zx * 1.0) * r.yz + (r.xy * 0.0 + r.yz * 1.0 + r.zx * 0.0) * r.zx) * v.x + ((r.s * 1.0 - r.xy * 0.0 + r.yz * 0.0) * r.s - (r.s * 0.0 + r.xy * 1.0 - r.zx * 0.0) * r.xy + (r.s * 0.0 - r.yz * 1.0 + r.zx * 0.0) * r.yz + (r.xy * 0.0 + r.yz * 0.0 + r.zx * 1.0) * r.zx) * v.y + ((r.s * 0.0 - r.xy * 0.0 + r.yz * 1.0) * r.s - (r.s * 0.0 + r.xy * 0.0 - r.zx * 1.0) * r.xy + (r.s * 1.0 - r.yz * 0.0 + r.zx * 0.0) * r.yz + (r.xy * 1.0 + r.yz * 0.0 + r.zx * 0.0) * r.zx) * v.z + 0.0 * t
  {
    M4.MulVecComponent1(RotationMat(r), Homogeneous(v, t));
    RotatedYOfXAxis(r);
    RotatedYOfYAxis(r);
    RotatedYOfZAxis(r);
  }

  lemma AppliedY(r: Rot3f64, v: V.Vec3f64, t: real)
    ensures M4.MulVec(RotationMat(r), Homogeneous(v, t)).coords[1] == RotatedVec(r, v).y
  {
    MatrixComponentY(r, v, t);
    RotatedY(r, v);
    Id.AppliedY(r.s, r.xy, r.yz, r.zx, v.x, v.y, v.z, t);
  }

  lemma RotatedZ(r: Rot3f64, v: V.Vec3f64)
    ensures RotatedVec(r, v).z == (r.s * v.z - r.yz * v.y + r.zx * v.x) * r.s + (r.s * v.x + r.xy * v.y - r.zx * v.z) * r.zx - (r.s * v.y - r.xy * v.x + r.yz * v.z) * r.yz + (r.xy * v.z + r.yz * v.x + r.zx * v.y) * r.xy
  {
  }

  lemma RotatedZOfXAxis(r: Rot3f64)
    ensures RotatedVec(r, V.Vec3f64(1.0, 0.0, 0.0)).z == (r.s * 0.0 - r.yz * 0.0 + r.zx * 1.0) * r.s + (r.s * 1.0 + r.xy * 0.0 - r.zx * 0.0) * r.zx - (r.s * 0.0 - r.xy * 1.0 + r.yz * 0.0) * r.yz + (r.xy * 0.0 + r.yz * 1.0 + r.zx * 0.0) * r.xy
  {
  }

  lemma RotatedZOfYAxis(r: Rot3f64)
    ensures RotatedVec(r, V.Vec3f64(0.0, 1.0, 0.0)).z == (r.s * 0.0 - r.yz * 1.0 + r.zx * 0.0) * r.s + (r.s * 0.0 + r.xy * 1.0 - r.zx * 0.0) * r.zx - (r.s * 1.0 - r.xy * 0.0 + r.yz * 0.0) * r.yz + (r.xy * 0.0 + r.yz * 0.0 + r.zx * 1.0) * r.xy
  {
  }

  lemma RotatedZOfZAxis(r: Rot3f64)
    ensures RotatedVec(r, V.Vec3f64(0.0, 0.0, 1.0)).z == (r.s * 1.0 - r.yz * 0.0 + r.zx * 0.0) * r.s + (r.s * 0.0 + r.xy * 0.0 - r.zx * 1.0) * r.zx - (r.s * 0.0 - r.xy * 0.0 + r.yz * 1.0) * r.yz + (r.xy * 1.0 + r.yz * 0.0 + r.zx * 0.0) * r.xy
  {
  }

  lemma MatrixComponentZ(r: Rot3f64, v: V.Vec3f64, t: real)
    ensures M4.MulVec(RotationMat(r), Homogeneous(v, t)).coords[2] == ((r.s * 0.0 - r.yz * 0.0 + r.zx * 1.0) * r.s + (r.s * 1.0 + r.xy * 0.0 - r.zx * 0.0) * r.zx - (r.s * 0.0 - r.xy * 1.0 + r.yz * 0.0) * r.yz + (r.xy * 0.0 + r.yz * 1.0 + r.zx * 0.0) * r.xy) * v.x + ((r.s * 0.0 - r.yz * 1.0 + r.zx * 0.0) * r.s + (r.s * 0.0 + r.xy * 1.0 - r.zx * 0.0) * r.zx - (r.s * 1.0 - r.xy * 0.0 + r.yz * 0.0) * r.yz + (r.xy * 0.0 + r.yz * 0.0 + r.zx * 1.0) * r.xy) * v.y + ((r.s * 1.0 - r.yz * 0.0 + r.zx * 0.0) * r.s + (r.s * 0.0 + r.xy * 0.0 - r.zx * 1.0) * r.zx - (r.s * 0.0 - r.xy * 0.0 + r.yz * 1.0) * r.yz + (r.xy * 1.0 + r.yz * 0.0 + r.zx * 0.0) * r.xy) * v.z + 0.0 * t
  {
    M4.MulVecComponent2(RotationMat(r), Homogeneous(v, t));
    RotatedZOfXAxis(r);
    RotatedZOfYAxis(r);
    RotatedZOfZAxis(r);
  }

  lemma AppliedZ(r: Rot3f64, v: V.Vec3f64, t: real)
    ensures M4.MulVec(RotationMat(r), Homogeneous(v, t)).coords[2] == RotatedVec(r, v).z
  {
    MatrixComponentZ(r, v, t);
    RotatedZ(r, v);
    Id.AppliedZ(r.s, r.xy, r.yz, r.zx, v.x, v.y, v.z, t);
  }

  /** The matrix of a rotor, applied to `v` in homogeneous coordinates,
      rotates `v` as `rotated_vec` does and keeps the last coordinate. */
  lemma RotationMatApplies(r: Rot3f64, v: V.Vec3f64, t: real)
    ensures M4.MulVec(RotationMat(r), Homogeneous(v, t)) == Homogeneous(RotatedVec(r, v), t)
  {
    var m, h := RotationMat(r), Homogeneous(v, t);
    AppliedX(r, v, t);
    AppliedY(r, v, t);
    AppliedZ(r, v, t);
    M4.MulVecComponent3(m, h);
    assert M4.MulVec(m, h).coords == Homogeneous(RotatedVec(r, v), t).coords;
  }

  /** The columns of the matrix are the images of the three axes, then the
      homogeneous origin; its last row is that of the identity. */
  lemma RotationMatColumns(r: Rot3f64)
    ensures M4.ColumnVector(RotationMat(r), 0) == Homogeneous(RotatedVec(r, V.Vec3f64(1.0, 0.0, 0.0)), 0.0)
    ensures M4.ColumnVector(RotationMat(r), 1) == Homogeneous(RotatedVec(r, V.Vec3f64(0.0, 1.0, 0.0)), 0.0)
    ensures M4.ColumnVector(RotationMat(r), 2) == Homogeneous(RotatedVec(r, V.Vec3f64(0.0, 0.0, 1.0)), 0.0)
    ensures M4.ColumnVector(RotationMat(r), 3) == Homogeneous(V.Zero(), 1.0)
    ensures M4.RowVector(RotationMat(r), 3) == V4.Vec4f64([0.0, 0.0, 0.0, 1.0])
  {
    var m := RotationMat(r);
    assert M4.ColumnVector(m, 0).coords == Homogeneous(RotatedVec(r, V.Vec3f64(1.0, 0.0, 0.0)), 0.0).coords;
    assert M4.ColumnVector(m, 1).coords == Homogeneous(RotatedVec(r, V.Vec3f64(0.0, 1.0, 0.0)), 0.0).coords;
    assert M4.ColumnVector(m, 2).coords == Homogeneous(RotatedVec(r, V.Vec3f64(0.0, 0.0, 1.0)), 0.0).coords;
    assert M4.ColumnVector(m, 3).coords == Homogeneous(V.Zero(), 1.0).coords;
  }

  /** The identity rotor has the identity matrix. */
  lemma RotationMatOfIdentity()
    ensures RotationMat(Identity()) == M4.Identity()
  {
    Laws.IdentityRotatesNothing(V.Vec3f64(1.0, 0.0, 0.0));
    Laws.IdentityRotatesNothing(V.Vec3f64(0.0, 1.0, 0.0));
    Laws.IdentityRotatesNothing(V.Vec3f64(0.0, 0.0, 1.0));
    var m := RotationMat(Identity());
    assert m.rows[0] == M4.Identity().rows[0];
    assert m.rows[1] == M4.Identity().rows[1];
    assert m.rows[2] == M4.Identity().rows[2];
  }

  /** Column `j` of the matrix of `a.appended(b)` is column `j` of the product
      of the matrices, where the unit vector along axis `j` is `v` in
      homogeneous coordinates `t`. */
  lemma AppendedColumn(a: Rot3f64, b: Rot3f64, j: nat, v: V.Vec3f64, t: real)
    requires j < 4 && M4.UnitVector(j) == Homogeneous(v, t)
    ensures M4.ColumnVector(RotationMat(Appended(a, b)), j) == M4.ColumnVector(M4.Mul(RotationMat(a), RotationMat(b)), j)
  {
    var u := M4.UnitVector(j);
    calc {
      M4.ColumnVector(RotationMat(Appended(a, b)), j);
    == { M4.MulVecUnit(RotationMat(Appended(a, b)), j); }
      M4.MulVec(RotationMat(Appended(a, b)), u);
    == { RotationMatApplies(Appended(a, b), v, t); }
      Homogeneous(RotatedVec(Appended(a, b), v), t);
    == { Laws.AppendedRotation(a, b, v); }
      Homogeneous(RotatedVec(a, RotatedVec(b, v)), t);
    == { RotationMatApplies(a, RotatedVec(b, v), t); }
      M4.MulVec(RotationMat(a), Homogeneous(RotatedVec(b, v), t));
    == { RotationMatApplies(b, v, t); }
      M4.MulVec(RotationMat(a), M4.MulVec(RotationMat(b), u));
    == { M4.MulVecOfProduct(RotationMat(a), RotationMat(b), u); }
      M4.MulVec(M4.Mul(RotationMat(a), RotationMat(b)), u);
    == { M4.MulVecUnit(M4.Mul(RotationMat(a), RotationMat(b)), j); }
      M4.ColumnVector(M4.Mul(RotationMat(a), RotationMat(b)), j);
    }
  }

  /** The matrix of `a.appended(b)` is the product of the matrices of `a` and
      `b`, in that order. */
  lemma RotationMatOfAppended(a: Rot3f64, b: Rot3f64)
    ensures RotationMat(Appended(a, b)) == M4.Mul(RotationMat(a), RotationMat(b))
  {
    assert M4.UnitVector(0) == Homogeneous(V.Vec3f64(1.0, 0.0, 0.0), 0.0);
    assert M4.UnitVector(1) == Homogeneous(V.Vec3f64(0.0, 1.0, 0.0), 0.0);
    assert M4.UnitVector(2) == Homogeneous(V.Vec3f64(0.0, 0.0, 1.0), 0.0);
    assert M4.UnitVector(3) == Homogeneous(V.Zero(), 1.0);
    AppendedColumn(a, b, 0, V.Vec3f64(1.0, 0.0, 0.0), 0.0);
    AppendedColumn(a, b, 1, V.Vec3f64(0.0, 1.0, 0.0), 0.0);
    AppendedColumn(a, b, 2, V.Vec3f64(0.0, 0.0, 1.0), 0.0);
    AppendedColumn(a, b, 3, V.Zero(), 1.0);
    M4.ColumnsDetermine(RotationMat(Appended(a, b)), M4.Mul(RotationMat(a), RotationMat(b)));
  }

  /** The dot product of two vectors in homogeneous coordinates. */
  lemma HomogeneousDot(a: V.Vec3f64, b: V.Vec3f64, s: real, t: real)
    ensures V4.Dot(Homogeneous(a, s), Homogeneous(b, t)) == V.Dot(a, b) + s * t
  {
  }

  /** The squared magnitude of a vector in homogeneous coordinates. */
  lemma HomogeneousMagSquared(v: V.Vec3f64, t: real)
    ensures V4.MagSquared(Homogeneous(v, t)) == V.MagnitudeSquared(v) + t * t
  {
  }

  lemma AxisImagesDotXY(r: Rot3f64)
    ensures V.Dot(RotatedVec(r, V.Vec3f64(1.0, 0.0, 0.0)), RotatedVec(r, V.Vec3f64(0.0, 1.0, 0.0))) == ((r.s * 1.0 + r.xy * 0.0 - r.zx * 0.0) * r.s + (r.s * 0.0 - r.xy * 1.0 + r.yz * 0.0) * r.xy - (r.s * 0.0 - r.yz * 0.0 + r.zx * 1.0) * r.zx + (r.xy * 0.0 + r.yz * 1.0 + r.zx * 0.0) * r.yz) * ((r.s * 0.0 + r.xy * 1.0 - r.zx * 0.0) * r.s + (r.s * 1.0 - r.xy * 0.0 + r.yz * 0.0) * r.xy - (r.s * 0.0 - r.yz * 1.0 + r.zx * 0.0) * r.zx + (r.xy * 0.0 + r.yz * 0.0 + r.zx * 1.0) * r.yz) + ((r.s * 0.0 - r.xy * 1.0 + r.yz * 0.0) * r.s - (r.s * 1.0 + r.xy * 0.0 - r.zx * 0.0) * r.xy + (r.s * 0.0 - r.yz * 0.0 + r.zx * 1.0) * r.yz + (r.xy * 0.0 + r.yz * 1.0 + r.zx * 0.0) * r.zx) * ((r.s * 1.0 - r.xy * 0.0 + r.yz * 0.0) * r.s - (r.s * 0.0 + r.xy * 1.0 - r.zx * 0.0) * r.xy + (r.s * 0.0 - r.yz * 1.0 + r.zx * 0.0) * r.yz + (r.xy * 0.0 + r.yz * 0.0 + r.zx * 1.0) * r.zx) + ((r.s * 0.0 - r.yz * 0.0 + r.zx * 1.0) * r.s + (r.s * 1.0 + r.xy * 0.0 - r.zx * 0.0) * r.zx - (r.s * 0.0 - r.xy * 1.0 + r.yz * 0.0) * r.yz + (r.xy * 0.0 + r.yz * 1.0 + r.zx * 0.0) * r.xy) * ((r.s * 0.0 - r.yz * 1.0 + r.zx * 0.0) * r.s + (r.s * 0.0 + r.xy * 1.0 - r.zx * 0.0) * r.zx - (r.s * 1.0 - r.xy * 0.0 + r.yz * 0.0) * r.yz + (r.xy * 0.0 + r.yz * 0.0 + r.zx * 1.0) * r.xy)
  {
    RotatedXOfXAxis(r);
    RotatedYOfXAxis(r);
    RotatedZOfXAxis(r);
    RotatedXOfYAxis(r);
    RotatedYOfYAxis(r);
    RotatedZOfYAxis(r);
  }

  /** Any rotor, unit or not, sends the X and Y axes to perpendicular
      vectors. */
  lemma AxisImagesOrthogonalXY(r: Rot3f64)
    ensures V.Dot(RotatedVec(r, V.Vec3f64(1.0, 0.0, 0.0)), RotatedVec(r, V.Vec3f64(0.0, 1.0, 0.0))) == 0.0
  {
    AxisImagesDotXY(r);
    Id.OrthogonalXY(r.s, r.xy, r.yz, r.zx);
  }

  lemma AxisImagesDotXZ(r: Rot3f64)
    ensures V.Dot(RotatedVec(r, V.Vec3f64(1.0, 0.0, 0.0)), RotatedVec(r, V.Vec3f64(0.0, 0.0, 1.0))) == ((r.s * 1.0 + r.xy * 0.0 - r.zx * 0.0) * r.s + (r.s * 0.0 - r.xy * 1.0 + r.yz * 0.0) * r.xy - (r.s * 0.0 - r.yz * 0.0 + r.zx * 1.0) * r.zx + (r.xy * 0.0 + r.yz * 1.0 + r.zx * 0.0) * r.yz) * ((r.s * 0.0 + r.xy * 0.0 - r.zx * 1.0) * r.s + (r.s * 0.0 - r.xy * 0.0 + r.yz * 1.0) * r.xy - (r.s * 1.0 - r.yz * 0.0 + r.zx * 0.0) * r.zx + (r.xy * 1.0 + r.yz * 0.0 + r.zx * 0.0) * r.yz) + ((r.s * 0.0 - r.xy * 1.0 + r.yz * 0.0) * r.s - (r.s * 1.0 + r.xy * 0.0 - r.zx * 0.0) * r.xy + (r.s * 0.0 - r.yz * 0.0 + r.zx * 1.0) * r.yz + (r.xy * 0.0 + r.yz * 1.0 + r.zx * 0.0) * r.zx) * ((r.s * 0.0 - r.xy * 0.0 + r.yz * 1.0) * r.s - (r.s * 0.0 + r.xy * 0.0 - r.zx * 1.0) * r.xy + (r.s * 1.0 - r.yz * 0.0 + r.zx * 0.0) * r.yz + (r.xy * 1.0 + r.yz * 0.0 + r.zx * 0.0) * r.zx) + ((r.s * 0.0 - r.yz * 0.0 + r.zx * 1.0) * r.s + (r.s * 1.0 + r.xy * 0.0 - r.zx * 0.0) * r.zx - (r.s * 0.0 - r.xy * 1.0 + r.yz * 0.0) * r.yz + (r.xy * 0.0 + r.yz * 1.0 + r.zx * 0.0) * r.xy) * ((r.s * 1.0 - r.yz * 0.0 + r.zx * 0.0) * r.s + (r.s * 0.0 + r.xy * 0.0 - r.zx * 1.0) * r.zx - (r.s * 0.0 - r.xy * 0.0 + r.yz * 1.0) * r.yz + (r.xy * 1.0 + r.yz * 0.0 + r.zx * 0.0) * r.xy)
  {
    RotatedXOfXAxis(r);
    RotatedYOfXAxis(r);
    RotatedZOfXAxis(r);
    RotatedXOfZAxis(r);
    RotatedYOfZAxis(r);
    RotatedZOfZAxis(r);
  }

  /** Any rotor, unit or not, sends the X and Z axes to perpendicular
      vectors. */
  lemma AxisImagesOrthogonalXZ(r: Rot3f64)
    ensures V.Dot(RotatedVec(r, V.Vec3f64(1.0, 0.0, 0.0)), RotatedVec(r, V.Vec3f64(0.0, 0.0, 1.0))) == 0.0
  {
    AxisImagesDotXZ(r);
    Id.OrthogonalXZ(r.s, r.xy, r.yz, r.zx);
  }

  lemma AxisImagesDotYZ(r: Rot3f64)
    ensures V.Dot(RotatedVec(r, V.Vec3f64(0.0, 1.0, 0.0)), RotatedVec(r, V.Vec3f64(0.0, 0.0, 1.0))) == ((r.s * 0.0 + r.xy * 1.0 - r.zx * 0.0) * r.s + (r.s * 1.0 - r.xy * 0.0 + r.yz * 0.0) * r.xy - (r.s * 0.0 - r.yz * 1.0 + r.zx * 0.0) * r.zx + (r.xy * 0.0 + r.yz * 0.0 + r.zx * 1.0) * r.yz) * ((r.s * 0.0 + r.xy * 0.0 - r.zx * 1.0) * r.s + (r.s * 0.0 - r.xy * 0.0 + r.yz * 1.0) * r.xy - (r.s * 1.0 - r.yz * 0.0 + r.zx * 0.0) * r.zx + (r.xy * 1.0 + r.yz * 0.0 + r.zx * 0.0) * r.yz) + ((r.s * 1.0 - r.xy * 0.0 + r.yz * 0.0) * r.s - (r.s * 0.0 + r.xy * 1.0 - r.zx * 0.0) * r.xy + (r.s * 0.0 - r.yz * 1.0 + r.zx * 0.0) * r.yz + (r.xy * 0.0 + r.yz * 0.0 + r.zx * 1.0) * r.zx) * ((r.s * 0.0 - r.xy * 0.0 + r.yz * 1.0) * r.s - (r.s * 0.0 + r.xy * 0.0 - r.zx * 1.0) * r.xy + (r.s * 1.0 - r.yz * 0.0 + r.zx * 0.0) * r.yz + (r.xy * 1.0 + r.yz * 0.0 + r.zx * 0.0) * r.zx) + ((r.s * 0.0 - r.yz * 1.0 + r.zx * 0.0) * r.s + (r.s * 0.0 + r.xy * 1.0 - r.zx * 0.0) * r.zx - (r.s * 1.0 - r.xy * 0.0 + r.yz * 0.0) * r.yz + (r.xy * 0.0 + r.yz * 0.0 + r.zx * 1.0) * r.xy) * ((r.s * 1.0 - r.yz * 0.0 + r.zx * 0.0) * r.s + (r.s * 0.0 + r.xy * 0.0 - r.zx * 1.0) * r.zx - (r.s * 0.0 - r.xy * 0.0 + r.yz * 1.0) * r.yz + (r.xy * 1.0 + r.yz * 0.0 + r.zx * 0.0) * r.xy)
  {
    RotatedXOfYAxis(r);
    RotatedYOfYAxis(r);
    RotatedZOfYAxis(r);
    RotatedXOfZAxis(r);
    RotatedYOfZAxis(r);
    RotatedZOfZAxis(r);
  }

  /** Any rotor, unit or not, sends the Y and Z axes to perpendicular
      vectors. */
  lemma AxisImagesOrthogonalYZ(r: Rot3f64)
    ensures V.Dot(RotatedVec(r, V.Vec3f64(0.0, 1.0, 0.0)), RotatedVec(r, V.Vec3f64(0.0, 0.0, 1.0))) == 0.0
  {
    AxisImagesDotYZ(r);
    Id.OrthogonalYZ(r.s, r.xy, r.yz, r.zx);
  }

  /** The matrix of a unit rotor is orthogonal: its four columns are
      pairwise perpendicular unit vectors. */
  lemma RotationMatOrthonormal(r: Rot3f64)
    requires IsUnit(r)
    ensures V4.Dot(M4.ColumnVector(RotationMat(r), 0), M4.ColumnVector(RotationMat(r), 1)) == 0.0
    ensures V4.Dot(M4.ColumnVector(RotationMat(r), 0), M4.ColumnVector(RotationMat(r), 2)) == 0.0
    ensures V4.Dot(M4.ColumnVector(RotationMat(r), 0), M4.ColumnVector(RotationMat(r), 3)) == 0.0
    ensures V4.Dot(M4.ColumnVector(RotationMat(r), 1), M4.ColumnVector(RotationMat(r), 2)) == 0.0
    ensures V4.Dot(M4.ColumnVector(RotationMat(r), 1), M4.ColumnVector(RotationMat(r), 3)) == 0.0
    ensures V4.Dot(M4.ColumnVector(RotationMat(r), 2), M4.ColumnVector(RotationMat(r), 3)) == 0.0
    ensures V4.MagSquared(M4.ColumnVector(RotationMat(r), 0)) == 1.0
    ensures V4.MagSquared(M4.ColumnVector(RotationMat(r), 1)) == 1.0
    ensures V4.MagSquared(M4.ColumnVector(RotationMat(r), 2)) == 1.0
    ensures V4.MagSquared(M4.ColumnVector(RotationMat(r), 3)) == 1.0
  {
    RotationMatColumns(r);
    HomogeneousDot(RotatedVec(r, V.Vec3f64(1.0, 0.0, 0.0)), RotatedVec(r, V.Vec3f64(0.0, 1.0, 0.0)), 0.0, 0.0);
    AxisImagesOrthogonalXY(r);
    HomogeneousDot(RotatedVec(r, V.Vec3f64(1.0, 0.0, 0.0)), RotatedVec(r, V.Vec3f64(0.0, 0.0, 1.0)), 0.0, 0.0);
    AxisImagesOrthogonalXZ(r);
    HomogeneousDot(RotatedVec(r, V.Vec3f64(0.0, 1.0, 0.0)), RotatedVec(r, V.Vec3f64(0.0, 0.0, 1.0)), 0.0, 0.0);
    AxisImagesOrthogonalYZ(r);
    HomogeneousDot(RotatedVec(r, V.Vec3f64(1.0, 0.0, 0.0)), V.Zero(), 0.0, 1.0);
    HomogeneousDot(RotatedVec(r, V.Vec3f64(0.0, 1.0, 0.0)), V.Zero(), 0.0, 1.0);
    HomogeneousDot(RotatedVec(r, V.Vec3f64(0.0, 0.0, 1.0)), V.Zero(), 0.0, 1.0);
    HomogeneousMagSquared(RotatedVec(r, V.Vec3f64(1.0, 0.0, 0.0)), 0.0);
    Laws.UnitRotationPreservesLength(r, V.Vec3f64(1.0, 0.0, 0.0));
    HomogeneousMagSquared(RotatedVec(r, V.Vec3f64(0.0, 1.0, 0.0)), 0.0);
    Laws.UnitRotationPreservesLength(r, V.Vec3f64(0.0, 1.0, 0.0));
    HomogeneousMagSquared(RotatedVec(r, V.Vec3f64(0.0, 0.0, 1.0)), 0.0);
    Laws.UnitRotationPreservesLength(r, V.Vec3f64(0.0, 0.0, 1.0));
    HomogeneousMagSquared(V.Zero(), 1.0);
  }
}

/** Polynomial identities behind module Rot3f64Matrix, over plain components
    (a rotor `r` has `rS, rXy, rYz, rZx`, a vector `v` has `vX, vY, vZ`). */
module Rot3f64MatrixIdentities {
  lemma AppliedX(rS: real, rXy: real, rYz: real, rZx: real, vX: real, vY: real, vZ: real, t: real)
    ensures (rS * vX + rXy * vY - rZx * vZ) * rS + (rS * vY - rXy * vX + rYz * vZ) * rXy - (rS * vZ - rYz * vY + rZx * vX) * rZx + (rXy * vZ + rYz * vX + rZx * vY) * rYz
         == ((rS * 1.0 + rXy * 0.0 - rZx * 0.0) * rS + (rS * 0.0 - rXy * 1.0 + rYz * 0.0) * rXy - (rS * 0.0 - rYz * 0.0 + rZx * 1.0) * rZx + (rXy * 0.0 + rYz * 1.0 + rZx * 0.0) * rYz) * vX + ((rS * 0.0 + rXy * 1.0 - rZx * 0.0) * rS + (rS * 1.0 - rXy * 0.0 + rYz * 0.0) * rXy - (rS * 0.0 - rYz * 1.0 + rZx * 0.0) * rZx + (rXy * 0.0 + rYz * 0.0 + rZx * 1.0) * rYz) * vY + ((rS * 0.0 + rXy * 0.0 - rZx * 1.0) * rS + (rS * 0.0 - rXy * 0.0 + rYz * 1.0) * rXy - (rS * 1.0 - rYz * 0.0 + rZx * 0.0) * rZx + (rXy * 1.0 + rYz * 0.0 + rZx * 0.0) * rYz) * vZ + 0.0 * t
  {
  }

  lemma AppliedY(rS: real, rXy: real, rYz: real, rZx: real, vX: real, vY: real, vZ: real, t: real)
    ensures (rS * vY - rXy * vX + rYz * vZ) * rS - (rS * vX + rXy * vY - rZx * vZ) * rXy + (rS * vZ - rYz * vY + rZx * vX) * rYz + (rXy * vZ + rYz * vX + rZx * vY) * rZx
         == ((rS * 0.0 - rXy * 1.0 + rYz * 0.0) * rS - (rS * 1.0 + rXy * 0.0 - rZx * 0.0) * rXy + (rS * 0.0 - rYz * 0.0 + rZx * 1.0) * rYz + (rXy * 0.0 + rYz * 1.0 + rZx * 0.0) * rZx) * vX + ((rS * 1.0 - rXy * 0.0 + rYz * 0.0) * rS - (rS * 0.0 + rXy * 1.0 - rZx * 0.0) * rXy + (rS * 0.0 - rYz * 1.0 + rZx * 0.0) * rYz + (rXy * 0.0 + rYz * 0.0 + rZx * 1.0) * rZx) * vY + ((rS * 0.0 - rXy * 0.0 + rYz * 1.0) * rS - (rS * 0.0 + rXy * 0.0 - rZx * 1.0) * rXy + (rS * 1.0 - rYz * 0.0 + rZx * 0.0) * rYz + (rXy * 1.0 + rYz * 0.0 + rZx * 0.0) * rZx) * vZ + 0.0 * t
  {
  }

  lemma AppliedZ(rS: real, rXy: real, rYz: real, rZx: real, vX: real, vY: real, vZ: real, t: real)
    ensures (rS * vZ - rYz * vY + rZx * vX) * rS + (rS * vX + rXy * vY - rZx * vZ) * rZx - (rS * vY - rXy * vX + rYz * vZ) * rYz + (rXy * vZ + rYz * vX + rZx * vY) * rXy
         == ((rS * 0.0 - rYz * 0.0 + rZx * 1.0) * rS + (rS * 1.0 + rXy * 0.0 - rZx * 0.0) * rZx - (rS * 0.0 - rXy * 1.0 + rYz * 0.0) * rYz + (rXy * 0.0 + rYz * 1.0 + rZx * 0.0) * rXy) * vX + ((rS * 0.0 - rYz * 1.0 + rZx * 0.0) * rS + (rS * 0.0 + rXy * 1.0 - rZx * 0.0) * rZx - (rS * 1.0 - rXy * 0.0 + rYz * 0.0) * rYz + (rXy * 0.0 + rYz * 0.0 + rZx * 1.0) * rXy) * vY + ((rS * 1.0 - rYz * 0.0 + rZx * 0.0) * rS + (rS * 0.0 + rXy * 0.0 - rZx * 1.0) * rZx - (rS * 0.0 - rXy * 0.0 + rYz * 1.0) * rYz + (rXy * 1.0 + rYz * 0.0 + rZx * 0.0) * rXy) * vZ + 0.0 * t
  {
  }

  lemma OrthogonalXY(rS: real, rXy: real, rYz: real, rZx: real)
    ensures ((rS * 1.0 + rXy * 0.0 - rZx * 0.0) * rS + (rS * 0.0 - rXy * 1.0 + rYz * 0.0) * rXy - (rS * 0.0 - rYz * 0.0 + rZx * 1.0) * rZx + (rXy * 0.0 + rYz * 1.0 + rZx * 0.0) * rYz) * ((rS * 0.0 + rXy * 1.0 - rZx * 0.0) * rS + (rS * 1.0 - rXy * 0.0 + rYz * 0.0) * rXy - (rS * 0.0 - rYz * 1.0 + rZx * 0.0) * rZx + (rXy * 0.0 + rYz * 0.0 + rZx * 1.0) * rYz) + ((rS * 0.0 - rXy * 1.0 + rYz * 0.0) * rS - (rS * 1.0 + rXy * 0.0 - rZx * 0.0) * rXy + (rS * 0.0 - rYz * 0.0 + rZx * 1.0) * rYz + (rXy * 0.0 + rYz * 1.0 + rZx * 0.0) * rZx) * ((rS * 1.0 - rXy * 0.0 + rYz * 0.0) * rS - (rS * 0.0 + rXy * 1.0 - rZx * 0.0) * rXy + (rS * 0.0 - rYz * 1.0 + rZx * 0.0) * rYz + (rXy * 0.0 + rYz * 0.0 + rZx * 1.0) * rZx) + ((rS * 0.0 - rYz * 0.0 + rZx * 1.0) * rS + (rS * 1.0 + rXy * 0.0 - rZx * 0.0) * rZx - (rS * 0.0 - rXy * 1.0 + rYz * 0.0) * rYz + (rXy * 0.0 + rYz * 1.0 + rZx * 0.0) * rXy) * ((rS * 0.0 - rYz * 1.0 + rZx * 0.0) * rS + (rS * 0.0 + rXy * 1.0 - rZx * 0.0) * rZx - (rS * 1.0 - rXy * 0.0 + rYz * 0.0) * rYz + (rXy * 0.0 + rYz * 0.0 + rZx * 1.0) * rXy) == 0.0
  {
  }

  lemma OrthogonalXZ(rS: real, rXy: real, rYz: real, rZx: real)
    ensures ((rS * 1.0 + rXy * 0.0 - rZx * 0.0) * rS + (rS * 0.0 - rXy * 1.0 + rYz * 0.0) * rXy - (rS * 0.0 - rYz * 0.0 + rZx * 1.0) * rZx + (rXy * 0.0 + rYz * 1.0 + rZx * 0.0) * rYz) * ((rS * 0.0 + rXy * 0.0 - rZx * 1.0) * rS + (rS * 0.0 - rXy * 0.0 + rYz * 1.0) * rXy - (rS * 1.0 - rYz * 0.0 + rZx * 0.0) * rZx + (rXy * 1.0 + rYz * 0.0 + rZx * 0.0) * rYz) + ((rS * 0.0 - rXy * 1.0 + rYz * 0.0) * rS - (rS * 1.0 + rXy * 0.0 - rZx * 0.0) * rXy + (rS * 0.0 - rYz * 0.0 + rZx * 1.0) * rYz + (rXy * 0.0 + rYz * 1.0 + rZx * 0.0) * rZx) * ((rS * 0.0 - rXy * 0.0 + rYz * 1.0) * rS - (rS * 0.0 + rXy * 0.0 - rZx * 1.0) * rXy + (rS * 1.0 - rYz * 0.0 + rZx * 0.0) * rYz + (rXy * 1.0 + rYz * 0.0 + rZx * 0.0) * rZx) + ((rS * 0.0 - rYz * 0.0 + rZx * 1.0) * rS + (rS * 1.0 + rXy * 0.0 - rZx * 0.0) * rZx - (rS * 0.0 - rXy * 1.0 + rYz * 0.0) * rYz + (rXy * 0.0 + rYz * 1.0 + rZx * 0.0) * rXy) * ((rS * 1.0 - rYz * 0.0 + rZx * 0.0) * rS + (rS * 0.0 + rXy * 0.0 - rZx * 1.0) * rZx - (rS * 0.0 - rXy * 0.0 + rYz * 1.0) * rYz + (rXy * 1.0 + rYz * 0.0 + rZx * 0.0) * rXy) == 0.0
  {
  }

  lemma OrthogonalYZ(rS: real, rXy: real, rYz: real, rZx: real)
    ensures ((rS * 0.0 + rXy * 1.0 - rZx * 0.0) * rS + (rS * 1.0 - rXy * 0.0 + rYz * 0.0) * rXy - (rS * 0.0 - rYz * 1.0 + rZx * 0.0) * rZx + (rXy * 0.0 + rYz * 0.0 + rZx * 1.0) * rYz) * ((rS * 0.0 + rXy * 0.0 - rZx * 1.0) * rS + (rS * 0.0 - rXy * 0.0 + rYz * 1.0) * rXy - (rS * 1.0 - rYz * 0.0 + rZx * 0.0) * rZx + (rXy * 1.0 + rYz * 0.0 + rZx * 0.0) * rYz) + ((rS * 1.0 - rXy * 0.0 + rYz * 0.0) * rS - (rS * 0.0 + rXy * 1.0 - rZx * 0.0) * rXy + (rS * 0.0 - rYz * 1.0 + rZx * 0.0) * rYz + (rXy * 0.0 + rYz * 0.0 + rZx * 1.0) * rZx) * ((rS * 0.0 - rXy * 0.0 + rYz * 1.0) * rS - (rS * 0.0 + rXy * 0.0 - rZx * 1.0) * rXy + (rS * 1.0 - rYz * 0.0 + rZx * 0.0) * rYz + (rXy * 1.0 + rYz * 0.0 + rZx * 0.0) * rZx) + ((rS * 0.0 - rYz * 1.0 + rZx * 0.0) * rS + (rS * 0.0 + rXy * 1.0 - rZx * 0.0) * rZx - (rS * 1.0 - rXy * 0.0 + rYz * 0.0) * rYz + (rXy * 0.0 + rYz * 0.0 + rZx * 1.0) * rXy) * ((rS * 1.0 - rYz * 0.0 + rZx * 0.0) * rS + (rS * 0.0 + rXy * 0.0 - rZx * 1.0) * rZx - (rS * 0.0 - rXy * 0.0 + rYz * 1.0) * rYz + (rXy * 1.0 + rYz * 0.0 + rZx * 0.0) * rXy) == 0.0
  {
  }
}
