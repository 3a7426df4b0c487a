/** The step-by-step expansions behind the rotor laws.

    Each law about the products of module Rot3f64 is proved one component at
    a time. For a component, one lemma writes the left-hand side out as a
    polynomial in the components of the arguments, another does the same for
    the right-hand side, and the identity between the two polynomials is a
    lemma of module Rot3f64Identities. */
module Rot3f64Steps {
  import R = Rot3f64
  import V = Vec3f64
  import Id = Rot3f64Identities

  lemma UnfoldLeftProductOfAppendedXLeft(a: R.Rot3f64, b: R.Rot3f64, v: V.Vec3f64)
    ensures R.LeftProduct(R.Appended(a, b), v).x == (a.s * b.s - a.xy * b.xy - a.yz * b.yz - a.zx * b.zx) * v.x + (a.s * b.xy + a.xy * b.s - a.yz * b.zx + a.zx * b.yz) * v.y - (a.s * b.zx + a.zx * b.s - a.xy * b.yz + a.yz * b.xy) * v.z
  {
  }

  lemma UnfoldLeftProductOfAppendedXRight(a: R.Rot3f64, b: R.Rot3f64, v: V.Vec3f64)
    ensures R.Times(a, R.LeftProduct(b, v)).x == a.s * (b.s * v.x + b.xy * v.y - b.zx * v.z) + a.xy * (b.s * v.y - b.xy * v.x + b.yz * v.z) - a.yz * (b.xy * v.z + b.yz * v.x + b.zx * v.y) - a.zx * (b.s * v.z - b.yz * v.y + b.zx * v.x)
  {
  }

  lemma LeftProductOfAppendedX(a: R.Rot3f64, b: R.Rot3f64, v: V.Vec3f64)
    ensures R.LeftProduct(R.Appended(a, b), v).x == R.Times(a, R.LeftProduct(b, v)).x
  {
    UnfoldLeftProductOfAppendedXLeft(a, b, v);
    UnfoldLeftProductOfAppendedXRight(a, b, v);
    Id.LeftProductOfAppendedX(a.s, a.xy, a.yz, a.zx, b.s, b.xy, b.yz, b.zx, v.x, v.y, v.z);
  }

  lemma UnfoldLeftProductOfAppendedYLeft(a: R.Rot3f64, b: R.Rot3f64, v: V.Vec3f64)
    ensures R.LeftProduct(R.Appended(a, b), v).y == (a.s * b.s - a.xy * b.xy - a.yz * b.yz - a.zx * b.zx) * v.y - (a.s * b.xy + a.xy * b.s - a.yz * b.zx + a.zx * b.yz) * v.x + (a.s * b.yz + a.yz * b.s + a.xy * b.zx - a.zx * b.xy) * v.z
  {
  }

  lemma UnfoldLeftProductOfAppendedYRight(a: R.Rot3f64, b: R.Rot3f64, v: V.Vec3f64)
    ensures R.Times(a, R.LeftProduct(b, v)).y == a.s * (b.s * v.y - b.xy * v.x + b.yz * v.z) - a.xy * (b.s * v.x + b.xy * v.y - b.zx * v.z) + a.yz * (b.s * v.z - b.yz * v.y + b.zx * v.x) - a.zx * (b.xy * v.z + b.yz * v.x + b.zx * v.y)
  {
  }

  lemma LeftProductOfAppendedY(a: R.Rot3f64, b: R.Rot3f64, v: V.Vec3f64)
    ensures R.LeftProduct(R.Appended(a, b), v).y == R.Times(a, R.LeftProduct(b, v)).y
  {
    UnfoldLeftProductOfAppendedYLeft(a, b, v);
    UnfoldLeftProductOfAppendedYRight(a, b, v);
    Id.LeftProductOfAppendedY(a.s, a.xy, a.yz, a.zx, b.s, b.xy, b.yz, b.zx, v.x, v.y, v.z);
  }

  lemma UnfoldLeftProductOfAppendedZLeft(a: R.Rot3f64, b: R.Rot3f64, v: V.Vec3f64)
    ensures R.LeftProduct(R.Appended(a, b), v).z == (a.s * b.s - a.xy * b.xy - a.yz * b.yz - a.zx * b.zx) * v.z - (a.s * b.yz + a.yz * b.s + a.xy * b.zx - a.zx * b.xy) * v.y + (a.s * b.zx + a.zx * b.s - a.xy * b.yz + a.yz * b.xy) * v.x
  {
  }

  lemma UnfoldLeftProductOfAppendedZRight(a: R.Rot3f64, b: R.Rot3f64, v: V.Vec3f64)
    ensures R.Times(a, R.LeftProduct(b, v)).z == a.s * (b.s * v.z - b.yz * v.y + b.zx * v.x) - a.xy * (b.xy * v.z + b.yz * v.x + b.zx * v.y) - a.yz * (b.s * v.y - b.xy * v.x + b.yz * v.z) + a.zx * (b.s * v.x + b.xy * v.y - b.zx * v.z)
  {
  }

  lemma LeftProductOfAppendedZ(a: R.Rot3f64, b: R.Rot3f64, v: V.Vec3f64)
    ensures R.LeftProduct(R.Appended(a, b), v).z == R.Times(a, R.LeftProduct(b, v)).z
  {
    UnfoldLeftProductOfAppendedZLeft(a, b, v);
    UnfoldLeftProductOfAppendedZRight(a, b, v);
    Id.LeftProductOfAppendedZ(a.s, a.xy, a.yz, a.zx, b.s, b.xy, b.yz, b.zx, v.x, v.y, v.z);
  }

  lemma UnfoldLeftProductOfAppendedXyzLeft(a: R.Rot3f64, b: R.Rot3f64, v: V.Vec3f64)
    ensures R.LeftProduct(R.Appended(a, b), v).xyz == (a.s * b.xy + a.xy * b.s - a.yz * b.zx + a.zx * b.yz) * v.z + (a.s * b.yz + a.yz * b.s + a.xy * b.zx - a.zx * b.xy) * v.x + (a.s * b.zx + a.zx * b.s - a.xy * b.yz + a.yz * b.xy) * v.y
  {
  }

  lemma UnfoldLeftProductOfAppendedXyzRight(a: R.Rot3f64, b: R.Rot3f64, v: V.Vec3f64)
    ensures R.Times(a, R.LeftProduct(b, v)).xyz == a.s * (b.xy * v.z + b.yz * v.x + b.zx * v.y) + a.xy * (b.s * v.z - b.yz * v.y + b.zx * v.x) + a.yz * (b.s * v.x + b.xy * v.y - b.zx * v.z) + a.zx * (b.s * v.y - b.xy * v.x + b.yz * v.z)
  {
  }

  lemma LeftProductOfAppendedXyz(a: R.Rot3f64, b: R.Rot3f64, v: V.Vec3f64)
    ensures R.LeftProduct(R.Appended(a, b), v).xyz == R.Times(a, R.LeftProduct(b, v)).xyz
  {
    UnfoldLeftProductOfAppendedXyzLeft(a, b, v);
    UnfoldLeftProductOfAppendedXyzRight(a, b, v);
    Id.LeftProductOfAppendedXyz(a.s, a.xy, a.yz, a.zx, b.s, b.xy, b.yz, b.zx, v.x, v.y, v.z);
  }

  /** Stage one of rotating by `a.appended(b)` is `a` times stage one of rotating by `b`: (a b) v == a (b v). */
  lemma LeftProductOfAppended(a: R.Rot3f64, b: R.Rot3f64, v: V.Vec3f64)
    ensures R.LeftProduct(R.Appended(a, b), v) == R.Times(a, R.LeftProduct(b, v))
  {
    LeftProductOfAppendedX(a, b, v);
    LeftProductOfAppendedY(a, b, v);
    LeftProductOfAppendedZ(a, b, v);
    LeftProductOfAppendedXyz(a, b, v);
  }

  lemma UnfoldTimesReverseOfAppendedXLeft(p: R.Half, a: R.Rot3f64, b: R.Rot3f64)
    ensures R.TimesReverse(p, R.Appended(a, b)).x == p.x * (a.s * b.s - a.xy * b.xy - a.yz * b.yz - a.zx * b.zx) + p.y * (a.s * b.xy + a.xy * b.s - a.yz * b.zx + a.zx * b.yz) - p.z * (a.s * b.zx + a.zx * b.s - a.xy * b.yz + a.yz * b.xy) + p.xyz * (a.s * b.yz + a.yz * b.s + a.xy * b.zx - a.zx * b.xy)
  {
  }

  lemma UnfoldTimesReverseOfAppendedXRight(p: R.Half, a: R.Rot3f64, b: R.Rot3f64)
    ensures R.TimesReverse(R.TimesReverse(p, b), a).x == (p.x * b.s + p.y * b.xy - p.z * b.zx + p.xyz * b.yz) * a.s + (p.y * b.s - p.x * b.xy + p.z * b.yz + p.xyz * b.zx) * a.xy - (p.z * b.s + p.x * b.zx - p.y * b.yz + p.xyz * b.xy) * a.zx + (p.xyz * b.s - p.x * b.yz - p.y * b.zx - p.z * b.xy) * a.yz
  {
  }

  lemma TimesReverseOfAppendedX(p: R.Half, a: R.Rot3f64, b: R.Rot3f64)
    ensures R.TimesReverse(p, R.Appended(a, b)).x == R.TimesReverse(R.TimesReverse(p, b), a).x
  {
    UnfoldTimesReverseOfAppendedXLeft(p, a, b);
    UnfoldTimesReverseOfAppendedXRight(p, a, b);
    Id.TimesReverseOfAppendedX(p.x, p.y, p.z, p.xyz, a.s, a.xy, a.yz, a.zx, b.s, b.xy, b.yz, b.zx);
  }

  lemma UnfoldTimesReverseOfAppendedYLeft(p: R.Half, a: R.Rot3f64, b: R.Rot3f64)
    ensures R.TimesReverse(p, R.Appended(a, b)).y == p.y * (a.s * b.s - a.xy * b.xy - a.yz * b.yz - a.zx * b.zx) - p.x * (a.s * b.xy + a.xy * b.s - a.yz * b.zx + a.zx * b.yz) + p.z * (a.s * b.yz + a.yz * b.s + a.xy * b.zx - a.zx * b.xy) + p.xyz * (a.s * b.zx + a.zx * b.s - a.xy * b.yz + a.yz * b.xy)
  {
  }

  lemma UnfoldTimesReverseOfAppendedYRight(p: R.Half, a: R.Rot3f64, b: R.Rot3f64)
    ensures R.TimesReverse(R.TimesReverse(p, b), a).y == (p.y * b.s - p.x * b.xy + p.z * b.yz + p.xyz * b.zx) * a.s - (p.x * b.s + p.y * b.xy - p.z * b.zx + p.xyz * b.yz) * a.xy + (p.z * b.s + p.x * b.zx - p.y * b.yz + p.xyz * b.xy) * a.yz + (p.xyz * b.s - p.x * b.yz - p.y * b.zx - p.z * b.xy) * a.zx
  {
  }

  lemma TimesReverseOfAppendedY(p: R.Half, a: R.Rot3f64, b: R.Rot3f64)
    ensures R.TimesReverse(p, R.Appended(a, b)).y == R.TimesReverse(R.TimesReverse(p, b), a).y
  {
    UnfoldTimesReverseOfAppendedYLeft(p, a, b);
    UnfoldTimesReverseOfAppendedYRight(p, a, b);
    Id.TimesReverseOfAppendedY(p.x, p.y, p.z, p.xyz, a.s, a.xy, a.yz, a.zx, b.s, b.xy, b.yz, b.zx);
  }

  lemma UnfoldTimesReverseOfAppendedZLeft(p: R.Half, a: R.Rot3f64, b: R.Rot3f64)
    ensures R.TimesReverse(p, R.Appended(a, b)).z == p.z * (a.s * b.s - a.xy * b.xy - a.yz * b.yz - a.zx * b.zx) + p.x * (a.s * b.zx + a.zx * b.s - a.xy * b.yz + a.yz * b.xy) - p.y * (a.s * b.yz + a.yz * b.s + a.xy * b.zx - a.zx * b.xy) + p.xyz * (a.s * b.xy + a.xy * b.s - a.yz * b.zx + a.zx * b.yz)
  {
  }

  lemma UnfoldTimesReverseOfAppendedZRight(p: R.Half, a: R.Rot3f64, b: R.Rot3f64)
    ensures R.TimesReverse(R.TimesReverse(p, b), a).z == (p.z * b.s + p.x * b.zx - p.y * b.yz + p.xyz * b.xy) * a.s + (p.x * b.s + p.y * b.xy - p.z * b.zx + p.xyz * b.yz) * a.zx - (p.y * b.s - p.x * b.xy + p.z * b.yz + p.xyz * b.zx) * a.yz + (p.xyz * b.s - p.x * b.yz - p.y * b.zx - p.z * b.xy) * a.xy
  {
  }

  lemma TimesReverseOfAppendedZ(p: R.Half, a: R.Rot3f64, b: R.Rot3f64)
    ensures R.TimesReverse(p, R.Appended(a, b)).z == R.TimesReverse(R.TimesReverse(p, b), a).z
  {
    UnfoldTimesReverseOfAppendedZLeft(p, a, b);
    UnfoldTimesReverseOfAppendedZRight(p, a, b);
    Id.TimesReverseOfAppendedZ(p.x, p.y, p.z, p.xyz, a.s, a.xy, a.yz, a.zx, b.s, b.xy, b.yz, b.zx);
  }

  lemma UnfoldTimesReverseOfAppendedXyzLeft(p: R.Half, a: R.Rot3f64, b: R.Rot3f64)
    ensures R.TimesReverse(p, R.Appended(a, b)).xyz == p.xyz * (a.s * b.s - a.xy * b.xy - a.yz * b.yz - a.zx * b.zx) - p.x * (a.s * b.yz + a.yz * b.s + a.xy * b.zx - a.zx * b.xy) - p.y * (a.s * b.zx + a.zx * b.s - a.xy * b.yz + a.yz * b.xy) - p.z * (a.s * b.xy + a.xy * b.s - a.yz * b.zx + a.zx * b.yz)
  {
  }

  lemma UnfoldTimesReverseOfAppendedXyzRight(p: R.Half, a: R.Rot3f64, b: R.Rot3f64)
    ensures R.TimesReverse(R.TimesReverse(p, b), a).xyz == (p.xyz * b.s - p.x * b.yz - p.y * b.zx - p.z * b.xy) * a.s - (p.x * b.s + p.y * b.xy - p.z * b.zx + p.xyz * b.yz) * a.yz - (p.y * b.s - p.x * b.xy + p.z * b.yz + p.xyz * b.zx) * a.zx - (p.z * b.s + p.x * b.zx - p.y * b.yz + p.xyz * b.xy) * a.xy
  {
  }

  lemma TimesReverseOfAppendedXyz(p: R.Half, a: R.Rot3f64, b: R.Rot3f64)
    ensures R.TimesReverse(p, R.Appended(a, b)).xyz == R.TimesReverse(R.TimesReverse(p, b), a).xyz
  {
    UnfoldTimesReverseOfAppendedXyzLeft(p, a, b);
    UnfoldTimesReverseOfAppendedXyzRight(p, a, b);
    Id.TimesReverseOfAppendedXyz(p.x, p.y, p.z, p.xyz, a.s, a.xy, a.yz, a.zx, b.s, b.xy, b.yz, b.zx);
  }

  /** Multiplying by the reverse of `a.appended(b)` is multiplying by the reverse of `b`, then of `a`: p (a b)~ == (p b~) a~. */
  lemma TimesReverseOfAppended(p: R.Half, a: R.Rot3f64, b: R.Rot3f64)
    ensures R.TimesReverse(p, R.Appended(a, b)) == R.TimesReverse(R.TimesReverse(p, b), a)
  {
    TimesReverseOfAppendedX(p, a, b);
    TimesReverseOfAppendedY(p, a, b);
    TimesReverseOfAppendedZ(p, a, b);
    TimesReverseOfAppendedXyz(p, a, b);
  }

  lemma UnfoldTimesAssociativeXLeft(a: R.Rot3f64, q: R.Half, b: R.Rot3f64)
    ensures R.TimesReverse(R.Times(a, q), b).x == (a.s * q.x + a.xy * q.y - a.yz * q.xyz - a.zx * q.z) * b.s + (a.s * q.y - a.xy * q.x + a.yz * q.z - a.zx * q.xyz) * b.xy - (a.s * q.z - a.xy * q.xyz - a.yz * q.y + a.zx * q.x) * b.zx + (a.s * q.xyz + a.xy * q.z + a.yz * q.x + a.zx * q.y) * b.yz
  {
  }

  lemma UnfoldTimesAssociativeXRight(a: R.Rot3f64, q: R.Half, b: R.Rot3f64)
    ensures R.Times(a, R.TimesReverse(q, b)).x == a.s * (q.x * b.s + q.y * b.xy - q.z * b.zx + q.xyz * b.yz) + a.xy * (q.y * b.s - q.x * b.xy + q.z * b.yz + q.xyz * b.zx) - a.yz * (q.xyz * b.s - q.x * b.yz - q.y * b.zx - q.z * b.xy) - a.zx * (q.z * b.s + q.x * b.zx - q.y * b.yz + q.xyz * b.xy)
  {
  }

  lemma TimesAssociativeX(a: R.Rot3f64, q: R.Half, b: R.Rot3f64)
    ensures R.TimesReverse(R.Times(a, q), b).x == R.Times(a, R.TimesReverse(q, b)).x
  {
    UnfoldTimesAssociativeXLeft(a, q, b);
    UnfoldTimesAssociativeXRight(a, q, b);
    Id.TimesAssociativeX(a.s, a.xy, a.yz, a.zx, q.x, q.y, q.z, q.xyz, b.s, b.xy, b.yz, b.zx);
  }

  lemma UnfoldTimesAssociativeYLeft(a: R.Rot3f64, q: R.Half, b: R.Rot3f64)
    ensures R.TimesReverse(R.Times(a, q), b).y == (a.s * q.y - a.xy * q.x + a.yz * q.z - a.zx * q.xyz) * b.s - (a.s * q.x + a.xy * q.y - a.yz * q.xyz - a.zx * q.z) * b.xy + (a.s * q.z - a.xy * q.xyz - a.yz * q.y + a.zx * q.x) * b.yz + (a.s * q.xyz + a.xy * q.z + a.yz * q.x + a.zx * q.y) * b.zx
  {
  }

  lemma UnfoldTimesAssociativeYRight(a: R.Rot3f64, q: R.Half, b: R.Rot3f64)
    ensures R.Times(a, R.TimesReverse(q, b)).y == a.s * (q.y * b.s - q.x * b.xy + q.z * b.yz + q.xyz * b.zx) - a.xy * (q.x * b.s + q.y * b.xy - q.z * b.zx + q.xyz * b.yz) + a.yz * (q.z * b.s + q.x * b.zx - q.y * b.yz + q.xyz * b.xy) - a.zx * (q.xyz * b.s - q.x * b.yz - q.y * b.zx - q.z * b.xy)
  {
  }

  lemma TimesAssociativeY(a: R.Rot3f64, q: R.Half, b: R.Rot3f64)
    ensures R.TimesReverse(R.Times(a, q), b).y == R.Times(a, R.TimesReverse(q, b)).y
  {
    UnfoldTimesAssociativeYLeft(a, q, b);
    UnfoldTimesAssociativeYRight(a, q, b);
    Id.TimesAssociativeY(a.s, a.xy, a.yz, a.zx, q.x, q.y, q.z, q.xyz, b.s, b.xy, b.yz, b.zx);
  }

  lemma UnfoldTimesAssociativeZLeft(a: R.Rot3f64, q: R.Half, b: R.Rot3f64)
    ensures R.TimesReverse(R.Times(a, q), b).z == (a.s * q.z - a.xy * q.xyz - a.yz * q.y + a.zx * q.x) * b.s + (a.s * q.x + a.xy * q.y - a.yz * q.xyz - a.zx * q.z) * b.zx - (a.s * q.y - a.xy * q.x + a.yz * q.z - a.zx * q.xyz) * b.yz + (a.s * q.xyz + a.xy * q.z + a.yz * q.x + a.zx * q.y) * b.xy
  {
  }

  lemma UnfoldTimesAssociativeZRight(a: R.Rot3f64, q: R.Half, b: R.Rot3f64)
    ensures R.Times(a, R.TimesReverse(q, b)).z == a.s * (q.z * b.s + q.x * b.zx - q.y * b.yz + q.xyz * b.xy) - a.xy * (q.xyz * b.s - q.x * b.yz - q.y * b.zx - q.z * b.xy) - a.yz * (q.y * b.s - q.x * b.xy + q.z * b.yz + q.xyz * b.zx) + a.zx * (q.x * b.s + q.y * b.xy - q.z * b.zx + q.xyz * b.yz)
  {
  }

  lemma TimesAssociativeZ(a: R.Rot3f64, q: R.Half, b: R.Rot3f64)
    ensures R.TimesReverse(R.Times(a, q), b).z == R.Times(a, R.TimesReverse(q, b)).z
  {
    UnfoldTimesAssociativeZLeft(a, q, b);
    UnfoldTimesAssociativeZRight(a, q, b);
    Id.TimesAssociativeZ(a.s, a.xy, a.yz, a.zx, q.x, q.y, q.z, q.xyz, b.s, b.xy, b.yz, b.zx);
  }

  lemma UnfoldTimesAssociativeXyzLeft(a: R.Rot3f64, q: R.Half, b: R.Rot3f64)
    ensures R.TimesReverse(R.Times(a, q), b).xyz == (a.s * q.xyz + a.xy * q.z + a.yz * q.x + a.zx * q.y) * b.s - (a.s * q.x + a.xy * q.y - a.yz * q.xyz - a.zx * q.z) * b.yz - (a.s * q.y - a.xy * q.x + a.yz * q.z - a.zx * q.xyz) * b.zx - (a.s * q.z - a.xy * q.xyz - a.yz * q.y + a.zx * q.x) * b.xy
  {
  }

  lemma UnfoldTimesAssociativeXyzRight(a: R.Rot3f64, q: R.Half, b: R.Rot3f64)
    ensures R.Times(a, R.TimesReverse(q, b)).xyz == a.s * (q.xyz * b.s - q.x * b.yz - q.y * b.zx - q.z * b.xy) + a.xy * (q.z * b.s + q.x * b.zx - q.y * b.yz + q.xyz * b.xy) + a.yz * (q.x * b.s + q.y * b.xy - q.z * b.zx + q.xyz * b.yz) + a.zx * (q.y * b.s - q.x * b.xy + q.z * b.yz + q.xyz * b.zx)
  {
  }

  lemma TimesAssociativeXyz(a: R.Rot3f64, q: R.Half, b: R.Rot3f64)
    ensures R.TimesReverse(R.Times(a, q), b).xyz == R.Times(a, R.TimesReverse(q, b)).xyz
  {
    UnfoldTimesAssociativeXyzLeft(a, q, b);
    UnfoldTimesAssociativeXyzRight(a, q, b);
    Id.TimesAssociativeXyz(a.s, a.xy, a.yz, a.zx, q.x, q.y, q.z, q.xyz, b.s, b.xy, b.yz, b.zx);
  }

  /** The two products associate: (a q) b~ == a (q b~). */
  lemma TimesAssociative(a: R.Rot3f64, q: R.Half, b: R.Rot3f64)
    ensures R.TimesReverse(R.Times(a, q), b) == R.Times(a, R.TimesReverse(q, b))
  {
    TimesAssociativeX(a, q, b);
    TimesAssociativeY(a, q, b);
    TimesAssociativeZ(a, q, b);
    TimesAssociativeXyz(a, q, b);
  }

  lemma UnfoldSandwichTrivectorXyzLeft(r: R.Rot3f64, v: V.Vec3f64)
    ensures R.TimesReverse(R.LeftProduct(r, v), r).xyz == (r.xy * v.z + r.yz * v.x + r.zx * v.y) * r.s - (r.s * v.x + r.xy * v.y - r.zx * v.z) * r.yz - (r.s * v.y - r.xy * v.x + r.yz * v.z) * r.zx - (r.s * v.z - r.yz * v.y + r.zx * v.x) * r.xy
  {
  }

  /** The trivector part of R v R~ vanishes, which is why `rotate_vec` does not compute it. */
  lemma SandwichTrivector(r: R.Rot3f64, v: V.Vec3f64)
    ensures R.TimesReverse(R.LeftProduct(r, v), r).xyz == 0.0
  {
    UnfoldSandwichTrivectorXyzLeft(r, v);
    Id.SandwichTrivectorXyz(r.s, r.xy, r.yz, r.zx, v.x, v.y, v.z);
  }

  lemma UnfoldAppendedNormLeft(a: R.Rot3f64, b: R.Rot3f64)
    ensures R.NormSquared(R.Appended(a, b)) == (a.s * b.s - a.xy * b.xy - a.yz * b.yz - a.zx * b.zx) * (a.s * b.s - a.xy * b.xy - a.yz * b.yz - a.zx * b.zx) + (a.s * b.xy + a.xy * b.s - a.yz * b.zx + a.zx * b.yz) * (a.s * b.xy + a.xy * b.s - a.yz * b.zx + a.zx * b.yz) + (a.s * b.yz + a.yz * b.s + a.xy * b.zx - a.zx * b.xy) * (a.s * b.yz + a.yz * b.s + a.xy * b.zx - a.zx * b.xy) + (a.s * b.zx + a.zx * b.s - a.xy * b.yz + a.yz * b.xy) * (a.s * b.zx + a.zx * b.s - a.xy * b.yz + a.yz * b.xy)
  {
  }

  lemma UnfoldAppendedNormRight(a: R.Rot3f64, b: R.Rot3f64)
    ensures R.NormSquared(a) * R.NormSquared(b) == (a.s * a.s + a.xy * a.xy + a.yz * a.yz + a.zx * a.zx) * (b.s * b.s + b.xy * b.xy + b.yz * b.yz + b.zx * b.zx)
  {
  }

  /** The squared norm of a product is the product of the squared norms (the four-square identity). */
  lemma AppendedNorm(a: R.Rot3f64, b: R.Rot3f64)
    ensures R.NormSquared(R.Appended(a, b)) == R.NormSquared(a) * R.NormSquared(b)
  {
    UnfoldAppendedNormLeft(a, b);
    UnfoldAppendedNormRight(a, b);
    Id.AppendedNorm(a.s, a.xy, a.yz, a.zx, b.s, b.xy, b.yz, b.zx);
  }

  lemma UnfoldVectorProductNormLeft(a: V.Vec3f64, b: V.Vec3f64)
    ensures R.NormSquared(R.VectorProduct(a, b)) == (b.x * a.x + b.y * a.y + b.z * a.z) * (b.x * a.x + b.y * a.y + b.z * a.z) + (b.x * a.y - b.y * a.x) * (b.x * a.y - b.y * a.x) + (b.y * a.z - b.z * a.y) * (b.y * a.z - b.z * a.y) + (b.z * a.x - b.x * a.z) * (b.z * a.x - b.x * a.z)
  {
  }

  lemma UnfoldVectorProductNormRight(a: V.Vec3f64, b: V.Vec3f64)
    ensures V.MagnitudeSquared(a) * V.MagnitudeSquared(b) == (a.x * a.x + a.y * a.y + a.z * a.z) * (b.x * b.x + b.y * b.y + b.z * b.z)
  {
  }

  /** The squared norm of the product of two vectors is the product of their squared magnitudes (Lagrange's identity). */
  lemma VectorProductNorm(a: V.Vec3f64, b: V.Vec3f64)
    ensures R.NormSquared(R.VectorProduct(a, b)) == V.MagnitudeSquared(a) * V.MagnitudeSquared(b)
  {
    UnfoldVectorProductNormLeft(a, b);
    UnfoldVectorProductNormRight(a, b);
    Id.VectorProductNorm(a.x, a.y, a.z, b.x, b.y, b.z);
  }

  lemma UnfoldRotationLengthLeft(r: R.Rot3f64, v: V.Vec3f64)
    ensures V.MagnitudeSquared(R.RotatedVec(r, v)) == ((r.s * v.x + r.xy * v.y - r.zx * v.z) * r.s + (r.s * v.y - r.xy * v.x + r.yz * v.z) * r.xy - (r.s * v.z - r.yz * v.y + r.zx * v.x) * r.zx + (r.xy * v.z + r.yz * v.x + r.zx * v.y) * r.yz) * ((r.s * v.x + r.xy * v.y - r.zx * v.z) * r.s + (r.s * v.y - r.xy * v.x + r.yz * v.z) * r.xy - (r.s * v.z - r.yz * v.y + r.zx * v.x) * r.zx + (r.xy * v.z + r.yz * v.x + r.zx * v.y) * r.yz) + ((r.s * v.y - r.xy * v.x + r.yz * v.z) * r.s - (r.s * v.x + r.xy * v.y - r.zx * v.z) * r.xy + (r.s * v.z - r.yz * v.y + r.zx * v.x) * r.yz + (r.xy * v.z + r.yz * v.x + r.zx * v.y) * r.zx) * ((r.s * v.y - r.xy * v.x + r.yz * v.z) * r.s - (r.s * v.x + r.xy * v.y - r.zx * v.z) * r.xy + (r.s * v.z - r.yz * v.y + r.zx * v.x) * r.yz + (r.xy * v.z + r.yz * v.x + r.zx * v.y) * r.zx) + ((r.s * v.z - r.yz * v.y + r.zx * v.x) * r.s + (r.s * v.x + r.xy * v.y - r.zx * v.z) * r.zx - (r.s * v.y - r.xy * v.x + r.yz * v.z) * r.yz + (r.xy * v.z + r.yz * v.x + r.zx * v.y) * r.xy) * ((r.s * v.z - r.yz * v.y + r.zx * v.x) * r.s + (r.s * v.x + r.xy * v.y - r.zx * v.z) * r.zx - (r.s * v.y - r.xy * v.x + r.yz * v.z) * r.yz + (r.xy * v.z + r.yz * v.x + r.zx * v.y) * r.xy)
  {
  }

  lemma UnfoldRotationLengthRight(r: R.Rot3f64, v: V.Vec3f64)
    ensures R.NormSquared(r) * R.NormSquared(r) * V.MagnitudeSquared(v) == (r.s * r.s + r.xy * r.xy + r.yz * r.yz + r.zx * r.zx) * (r.s * r.s + r.xy * r.xy + r.yz * r.yz + r.zx * r.zx) * (v.x * v.x + v.y * v.y + v.z * v.z)
  {
  }

  /** Rotating by R scales the squared length by the square of its squared norm. */
  lemma RotationLength(r: R.Rot3f64, v: V.Vec3f64)
    ensures V.MagnitudeSquared(R.RotatedVec(r, v)) == R.NormSquared(r) * R.NormSquared(r) * V.MagnitudeSquared(v)
  {
    UnfoldRotationLengthLeft(r, v);
    UnfoldRotationLengthRight(r, v);
    Id.RotationLength(r.s, r.xy, r.yz, r.zx, v.x, v.y, v.z);
  }

  lemma UnfoldBivectorHalfTurnXLeft(r: R.Rot3f64, v: V.Vec3f64)
    requires r.s == 0.0
    ensures R.RotatedVec(r, v).x == (r.s * v.x + r.xy * v.y - r.zx * v.z) * r.s + (r.s * v.y - r.xy * v.x + r.yz * v.z) * r.xy - (r.s * v.z - r.yz * v.y + r.zx * v.x) * r.zx + (r.xy * v.z + r.yz * v.x + r.zx * v.y) * r.yz
  {
  }

  lemma UnfoldBivectorHalfTurnXRight(r: R.Rot3f64, v: V.Vec3f64)
    requires r.s == 0.0
    ensures R.HalfTurn(R.Axis(r), v).x == r.yz * (2.0 * (r.yz * v.x + r.zx * v.y + r.xy * v.z)) - v.x * (r.yz * r.yz + r.zx * r.zx + r.xy * r.xy)
  {
  }

  lemma BivectorHalfTurnX(r: R.Rot3f64, v: V.Vec3f64)
    requires r.s == 0.0
    ensures R.RotatedVec(r, v).x == R.HalfTurn(R.Axis(r), v).x
  {
    UnfoldBivectorHalfTurnXLeft(r, v);
    UnfoldBivectorHalfTurnXRight(r, v);
    Id.BivectorHalfTurnX(r.s, r.xy, r.yz, r.zx, v.x, v.y, v.z);
  }

  lemma UnfoldBivectorHalfTurnYLeft(r: R.Rot3f64, v: V.Vec3f64)
    requires r.s == 0.0
    ensures R.RotatedVec(r, v).y == (r.s * v.y - r.xy * v.x + r.yz * v.z) * r.s - (r.s * v.x + r.xy * v.y - r.zx * v.z) * r.xy + (r.s * v.z - r.yz * v.y + r.zx * v.x) * r.yz + (r.xy * v.z + r.yz * v.x + r.zx * v.y) * r.zx
  {
  }

  lemma UnfoldBivectorHalfTurnYRight(r: R.Rot3f64, v: V.Vec3f64)
    requires r.s == 0.0
    ensures R.HalfTurn(R.Axis(r), v).y == r.zx * (2.0 * (r.yz * v.x + r.zx * v.y + r.xy * v.z)) - v.y * (r.yz * r.yz + r.zx * r.zx + r.xy * r.xy)
  {
  }

  lemma BivectorHalfTurnY(r: R.Rot3f64, v: V.Vec3f64)
    requires r.s == 0.0
    ensures R.RotatedVec(r, v).y == R.HalfTurn(R.Axis(r), v).y
  {
    UnfoldBivectorHalfTurnYLeft(r, v);
    UnfoldBivectorHalfTurnYRight(r, v);
    Id.BivectorHalfTurnY(r.s, r.xy, r.yz, r.zx, v.x, v.y, v.z);
  }

  lemma UnfoldBivectorHalfTurnZLeft(r: R.Rot3f64, v: V.Vec3f64)
    requires r.s == 0.0
    ensures R.RotatedVec(r, v).z == (r.s * v.z - r.yz * v.y + r.zx * v.x) * r.s + (r.s * v.x + r.xy * v.y - r.zx * v.z) * r.zx - (r.s * v.y - r.xy * v.x + r.yz * v.z) * r.yz + (r.xy * v.z + r.yz * v.x + r.zx * v.y) * r.xy
  {
  }

  lemma UnfoldBivectorHalfTurnZRight(r: R.Rot3f64, v: V.Vec3f64)
    requires r.s == 0.0
    ensures R.HalfTurn(R.Axis(r), v).z == r.xy * (2.0 * (r.yz * v.x + r.zx * v.y + r.xy * v.z)) - v.z * (r.yz * r.yz + r.zx * r.zx + r.xy * r.xy)
  {
  }

  lemma BivectorHalfTurnZ(r: R.Rot3f64, v: V.Vec3f64)
    requires r.s == 0.0
    ensures R.RotatedVec(r, v).z == R.HalfTurn(R.Axis(r), v).z
  {
    UnfoldBivectorHalfTurnZLeft(r, v);
    UnfoldBivectorHalfTurnZRight(r, v);
    Id.BivectorHalfTurnZ(r.s, r.xy, r.yz, r.zx, v.x, v.y, v.z);
  }

  /** A rotor with no scalar part turns vectors half a turn about the axis dual to its bivector. */
  lemma BivectorHalfTurn(r: R.Rot3f64, v: V.Vec3f64)
    requires r.s == 0.0
    ensures R.RotatedVec(r, v) == R.HalfTurn(R.Axis(r), v)
  {
    BivectorHalfTurnX(r, v);
    BivectorHalfTurnY(r, v);
    BivectorHalfTurnZ(r, v);
  }
}
