/** What the rotor of src/rot/rot3f64.rs promises: the identity, the
    construction from vectors, inversion, composition, the length it keeps
    and the matrix it exports. */
module Rot3f64Laws {
  import opened Scalars
  import opened Rot3f64
  import V = Vec3f64
  import S = Rot3f64Steps

  // ---------------------------------------------------------------------
  // Products

  /** The second half of `rotate_vec` is the vector part of p r~. */
  lemma RightProductIsVectorPart(p: Half, r: Rot3f64)
    ensures RightProduct(p, r) == V.Vec3f64(TimesReverse(p, r).x, TimesReverse(p, r).y, TimesReverse(p, r).z)
  {
  }

  /** A rotor times a vector with no trivector part is the first half of
      `rotate_vec`. */
  lemma TimesOfVector(a: Rot3f64, u: V.Vec3f64)
    ensures Times(a, Half(u.x, u.y, u.z, 0.0)) == LeftProduct(a, u)
  {
  }

  /** The sandwich R v R~ is a vector: its trivector part vanishes. */
  lemma SandwichIsVector(r: Rot3f64, v: V.Vec3f64)
    ensures TimesReverse(LeftProduct(r, v), r) == Half(RotatedVec(r, v).x, RotatedVec(r, v).y, RotatedVec(r, v).z, 0.0)
  {
    S.SandwichTrivector(r, v);
  }

  /** Rotating by `a.appended(b)` rotates by `b` first and by `a` second. */
  lemma AppendedRotation(a: Rot3f64, b: Rot3f64, v: V.Vec3f64)
    ensures RotatedVec(Appended(a, b), v) == RotatedVec(a, RotatedVec(b, v))
  {
    var u := RotatedVec(b, v);
    var p := LeftProduct(b, v);
    calc {
      RotatedVec(Appended(a, b), v);
      { RightProductIsVectorPart(LeftProduct(Appended(a, b), v), Appended(a, b)); }
      V.Vec3f64(TimesReverse(LeftProduct(Appended(a, b), v), Appended(a, b)).x,
                TimesReverse(LeftProduct(Appended(a, b), v), Appended(a, b)).y,
                TimesReverse(LeftProduct(Appended(a, b), v), Appended(a, b)).z);
      { S.LeftProductOfAppended(a, b, v);
        S.TimesReverseOfAppended(Times(a, p), a, b); }
      V.Vec3f64(TimesReverse(TimesReverse(Times(a, p), b), a).x,
                TimesReverse(TimesReverse(Times(a, p), b), a).y,
                TimesReverse(TimesReverse(Times(a, p), b), a).z);
      { S.TimesAssociative(a, p, b);
        SandwichIsVector(b, v);
        TimesOfVector(a, u); }
      V.Vec3f64(TimesReverse(LeftProduct(a, u), a).x,
                TimesReverse(LeftProduct(a, u), a).y,
                TimesReverse(LeftProduct(a, u), a).z);
      { RightProductIsVectorPart(LeftProduct(a, u), a); }
      RotatedVec(a, u);
    }
  }

  // ---------------------------------------------------------------------
  // Identity and inverse

  /** `identity()` rotates no vector. */
  lemma IdentityRotatesNothing(v: V.Vec3f64)
    ensures RotatedVec(Identity(), v) == v
  {
  }

  /** `identity()` is neutral for `appended` on both sides. */
  lemma IdentityNeutral(r: Rot3f64)
    ensures Appended(Identity(), r) == r && Appended(r, Identity()) == r
  {
  }

  /** `inverted` is an involution and keeps the norm. */
  lemma InvertedInvolution(r: Rot3f64)
    ensures Inverted(Inverted(r)) == r
  {
  }

  lemma InvertedKeepsNorm(r: Rot3f64)
    ensures NormSquared(Inverted(r)) == NormSquared(r)
  {
  }

  /** A rotor appended to its inverse, in either order, is the scalar
      `NormSquared(r)`; for a unit rotor it is the identity. */
  lemma InvertedCancels(r: Rot3f64)
    ensures Appended(Inverted(r), r) == Rot3f64(NormSquared(r), 0.0, 0.0, 0.0)
    ensures Appended(r, Inverted(r)) == Rot3f64(NormSquared(r), 0.0, 0.0, 0.0)
  {
  }

  /** Rotating by a unit rotor and then by its inverse gives the vector
      back, and so does the other order. */
  lemma InverseRoundTrip(r: Rot3f64, v: V.Vec3f64)
    requires IsUnit(r)
    ensures RotatedVec(Inverted(r), RotatedVec(r, v)) == v
    ensures RotatedVec(r, RotatedVec(Inverted(r), v)) == v
  {
    InvertedCancels(r);
    AppendedRotation(Inverted(r), r, v);
    AppendedRotation(r, Inverted(r), v);
    IdentityRotatesNothing(v);
  }

  /** Scaling the normalized rotor back by `mag` gives the rotor. */
  lemma NormalizedScalesBack(r: Rot3f64, mag: real)
    requires r != Rot3f64(0.0, 0.0, 0.0, 0.0) && IsRoot(NormSquared(r), mag)
    ensures mag > 0.0
    ensures var q := Normalized(r, mag); Rot3f64(q.s * mag, q.xy * mag, q.yz * mag, q.zx * mag) == r
  {
    NormSquaredSign(r);
    RootOfPositive(NormSquared(r), mag);
  }

  /** Normalizing a unit rotor changes nothing, so `normalize` is
      idempotent. */
  lemma NormalizeUnitIsNoop(r: Rot3f64, mag: real)
    requires IsUnit(r) && IsRoot(NormSquared(r), mag)
    ensures r != Rot3f64(0.0, 0.0, 0.0, 0.0)
    ensures Normalized(r, mag) == r
  {
    assert mag * mag == 1.0;
    UnitRoot(mag);
  }

  lemma UnitRoot(m: real)
    requires m >= 0.0 && m * m == 1.0
    ensures m == 1.0
  {
    if m > 1.0 {
      ProductPositive(m - 1.0, m + 1.0, (m - 1.0) * (m + 1.0));
    } else if m < 1.0 {
      ProductPositive(1.0 - m, 1.0 + m, (1.0 - m) * (1.0 + m));
    }
  }

  // ---------------------------------------------------------------------
  // Length and composition of unit rotors

  /** Rotating scales the squared length by the square of the rotor's norm;
      a unit rotor keeps it. */
  lemma UnitRotationPreservesLength(r: Rot3f64, v: V.Vec3f64)
    requires IsUnit(r)
    ensures V.MagnitudeSquared(RotatedVec(r, v)) == V.MagnitudeSquared(v)
  {
    S.RotationLength(r, v);
    ProductOfOnes(NormSquared(r), NormSquared(r), NormSquared(r) * NormSquared(r));
  }

  /** Appending unit rotors gives a unit rotor. */
  lemma AppendedIsUnit(a: Rot3f64, b: Rot3f64)
    requires IsUnit(a) && IsUnit(b)
    ensures IsUnit(Appended(a, b))
  {
    S.AppendedNorm(a, b);
    ProductOfOnes(NormSquared(a), NormSquared(b), NormSquared(Appended(a, b)));
  }

  // ---------------------------------------------------------------------
  // The rotor of two vectors

  /** The product b a of two vectors is the product of the bivectors dual
      to `b` and to `-a`. */
  lemma VectorProductOfDuals(a: V.Vec3f64, b: V.Vec3f64)
    ensures VectorProduct(a, b) == Appended(Dual(b), Inverted(Dual(a)))
  {
  }

  /** A half turn about `-n` is the half turn about `n`. */
  lemma HalfTurnOfNegated(n: V.Vec3f64, w: V.Vec3f64)
    ensures HalfTurn(V.Vec3f64(-n.x, -n.y, -n.z), w) == HalfTurn(n, w)
  {
    var m := V.Vec3f64(-n.x, -n.y, -n.z);
    assert V.Dot(m, w) == -V.Dot(n, w);
    assert V.MagnitudeSquared(m) == V.MagnitudeSquared(n);
    NegatedScale(n, 2.0 * V.Dot(n, w));
  }

  lemma NegatedScale(n: V.Vec3f64, k: real)
    ensures V.Scale(V.Vec3f64(-n.x, -n.y, -n.z), -k) == V.Scale(n, k)
  {
  }

  /** Rotating by the product b a is a half turn about `a` followed by a
      half turn about `b`. */
  lemma VectorProductTwoHalfTurns(a: V.Vec3f64, b: V.Vec3f64, v: V.Vec3f64)
    ensures RotatedVec(VectorProduct(a, b), v) == HalfTurn(b, HalfTurn(a, v))
  {
    var na := Inverted(Dual(a));
    VectorProductOfDuals(a, b);
    AppendedRotation(Dual(b), na, v);
    S.BivectorHalfTurn(na, v);
    assert Axis(na) == V.Vec3f64(-a.x, -a.y, -a.z);
    HalfTurnOfNegated(a, v);
    S.BivectorHalfTurn(Dual(b), HalfTurn(a, v));
    assert Axis(Dual(b)) == b;
  }

  /** A half turn about a unit vector leaves that vector where it is. */
  lemma HalfTurnFixesAxis(n: V.Vec3f64)
    requires IsUnitVector(n)
    ensures HalfTurn(n, n) == n
  {
    V.DotSelfIsMagnitudeSquared(n);
  }

  /** A half turn about a unit vector orthogonal to `w` negates `w`. */
  lemma HalfTurnOfOrthogonal(n: V.Vec3f64, w: V.Vec3f64)
    requires IsUnitVector(n) && V.Dot(n, w) == 0.0
    ensures HalfTurn(n, w) == V.Vec3f64(-w.x, -w.y, -w.z)
  {
  }

  /** The rotor built from two unit vectors is a unit rotor. */
  lemma NewIsUnit(a: V.Vec3f64, b: V.Vec3f64)
    requires IsUnitVector(a) && IsUnitVector(b)
    ensures IsUnit(New(a, b))
  {
    S.VectorProductNorm(a, b);
    ProductOfOnes(V.MagnitudeSquared(a), V.MagnitudeSquared(b), NormSquared(New(a, b)));
  }

  /** `new_exact` builds unit rotors. */
  lemma NewExactIsUnit(a: V.Vec3f64, b: V.Vec3f64, perp: V.Vec3f64, mag: real)
    requires IsUnitVector(a) && IsUnitVector(b)
    requires NearlyOpposite(V.Dot(a, b)) ==> V.Dot(perp, a) == 0.0 && IsUnitVector(perp)
    requires !NearlyOpposite(V.Dot(a, b)) ==> V.IsMagnitude(V.Add(a, b), mag)
    ensures IsUnit(NewExact(a, b, perp, mag))
  {
    if NearlyOpposite(V.Dot(a, b)) {
      NewIsUnit(a, perp);
    } else {
      BisectorIsUnit(a, b, mag);
      NewIsUnit(a, V.Div(V.Add(a, b), mag));
    }
  }

  /** `new(a, a)` is the identity. */
  lemma NewSelfIsIdentity(a: V.Vec3f64)
    requires IsUnitVector(a)
    ensures New(a, a) == Identity()
  {
  }

  /** `new(b, a)` is `new(a, b).inverted()`. */
  lemma NewSwappedIsInverse(a: V.Vec3f64, b: V.Vec3f64)
    requires IsUnitVector(a) && IsUnitVector(b)
    ensures New(b, a) == Inverted(New(a, b))
  {
  }

  // ---------------------------------------------------------------------
  // new_exact

  /** Twice the projection onto the unit bisector, scaled back along it,
      is the sum itself: `2 (t / m) (c / m) == c` when `m² == 2 t`. */
  lemma BisectorScalar(t: real, m: real, c: real)
    requires m != 0.0 && m * m == 2.0 * t
    ensures (c / m) * (2.0 * (t / m)) == c
  {
    var u, q, mm := t / m, c / m, m * m;
    assert u * m == t && q * m == c;
    assert (q * (2.0 * u)) * mm == 2.0 * (u * m) * (q * m);
    SquarePositive(m, mm);
    Cancel(q * (2.0 * u), c, mm);
  }

  lemma Cancel(x: real, y: real, k: real)
    requires k > 0.0 && x * k == y * k
    ensures x == y
  {
    if x > y {
      ProductPositive(x - y, k, (x - y) * k);
    } else if x < y {
      ProductPositive(y - x, k, (y - x) * k);
    }
  }

  /** The dot product of the bisector with `a`. */
  lemma BisectorDot(a: V.Vec3f64, b: V.Vec3f64, mag: real)
    requires mag != 0.0
    ensures V.Dot(V.Div(V.Add(a, b), mag), a) == (V.MagnitudeSquared(a) + V.Dot(a, b)) / mag
  {
    var h := V.Div(V.Add(a, b), mag);
    assert V.Dot(h, a) * mag == (a.x + b.x) * a.x + (a.y + b.y) * a.y + (a.z + b.z) * a.z;
  }

  /** Scaling the bisector by twice its projection on `a` gives `a + b`. */
  lemma BisectorProjection(a: V.Vec3f64, b: V.Vec3f64, mag: real)
    requires IsUnitVector(a) && IsUnitVector(b)
    requires mag != 0.0 && mag * mag == V.MagnitudeSquared(V.Add(a, b))
    ensures V.Scale(V.Div(V.Add(a, b), mag), 2.0 * V.Dot(V.Div(V.Add(a, b), mag), a)) == V.Add(a, b)
  {
    var t := 1.0 + V.Dot(a, b);
    BisectorDot(a, b, mag);
    SumOfSquaresOfSum(a, b);
    V.DotSymmetric(a, b);
    BisectorScalar(t, mag, a.x + b.x);
    BisectorScalar(t, mag, a.y + b.y);
    BisectorScalar(t, mag, a.z + b.z);
  }

  /** The half turn about the unit bisector of two unit vectors exchanges
      them. */
  lemma BisectorHalfTurn(a: V.Vec3f64, b: V.Vec3f64, mag: real)
    requires IsUnitVector(a) && IsUnitVector(b)
    requires !NearlyOpposite(V.Dot(a, b)) && V.IsMagnitude(V.Add(a, b), mag)
    ensures mag != 0.0
    ensures HalfTurn(V.Div(V.Add(a, b), mag), a) == b
  {
    BisectorIsUnit(a, b, mag);
    BisectorProjection(a, b, mag);
    HalfTurnToOther(V.Div(V.Add(a, b), mag), a, b);
  }

  /** The half turn about a unit `n` is `p - w`, where `p` is `w`'s
      projection on `n` taken twice. */
  lemma HalfTurnAboutUnit(n: V.Vec3f64, w: V.Vec3f64, p: V.Vec3f64)
    requires IsUnitVector(n) && V.Scale(n, 2.0 * V.Dot(n, w)) == p
    ensures HalfTurn(n, w) == V.Sub(p, w)
  {
  }

  /** A half turn about a unit `n` whose doubled projection of `a` is `a + b`
      turns `a` onto `b`. */
  lemma HalfTurnToOther(n: V.Vec3f64, a: V.Vec3f64, b: V.Vec3f64)
    requires IsUnitVector(n) && V.Scale(n, 2.0 * V.Dot(n, a)) == V.Add(a, b)
    ensures HalfTurn(n, a) == b
  {
    HalfTurnAboutUnit(n, a, V.Add(a, b));
    AddSubCancel(a, b);
  }

  lemma AddSubCancel(a: V.Vec3f64, b: V.Vec3f64)
    ensures V.Sub(V.Add(a, b), a) == b
  {
  }

  /** |a + b|² == |a|² + 2 a·b + |b|². */
  lemma SumOfSquaresOfSum(a: V.Vec3f64, b: V.Vec3f64)
    ensures V.MagnitudeSquared(V.Add(a, b)) == V.MagnitudeSquared(a) + 2.0 * V.Dot(a, b) + V.MagnitudeSquared(b)
  {
  }

  /** `new_exact(a, b)` turns `a` onto `b` when they are not nearly
      opposite. */
  lemma NewExactTurnsOnto(a: V.Vec3f64, b: V.Vec3f64, perp: V.Vec3f64, mag: real)
    requires IsUnitVector(a) && IsUnitVector(b)
    requires !NearlyOpposite(V.Dot(a, b)) && V.IsMagnitude(V.Add(a, b), mag)
    ensures RotatedVec(NewExact(a, b, perp, mag), a) == b
  {
    BisectorIsUnit(a, b, mag);
    var h := V.Div(V.Add(a, b), mag);
    VectorProductTwoHalfTurns(a, h, a);
    HalfTurnFixesAxis(a);
    BisectorHalfTurn(a, b, mag);
  }

  /** Inside the window `new_exact(a, b)` turns `a` half a turn about
      `perp`, onto `-a`. */
  lemma NewExactTurnsOpposite(a: V.Vec3f64, b: V.Vec3f64, perp: V.Vec3f64, mag: real)
    requires IsUnitVector(a) && IsUnitVector(b)
    requires NearlyOpposite(V.Dot(a, b)) && V.Dot(perp, a) == 0.0 && IsUnitVector(perp)
    ensures RotatedVec(NewExact(a, b, perp, mag), a) == V.Vec3f64(-a.x, -a.y, -a.z)
  {
    VectorProductTwoHalfTurns(a, perp, a);
    HalfTurnFixesAxis(a);
    HalfTurnOfOrthogonal(perp, a);
  }

  /** The branch `new_exact` takes: the window of `a.dot(b)` alone decides. */
  lemma NewExactBranch(a: V.Vec3f64, b: V.Vec3f64, perp: V.Vec3f64, mag: real)
    requires IsUnitVector(a) && IsUnitVector(b)
    requires NearlyOpposite(V.Dot(a, b)) ==> V.Dot(perp, a) == 0.0 && IsUnitVector(perp)
    requires !NearlyOpposite(V.Dot(a, b)) ==> V.IsMagnitude(V.Add(a, b), mag)
    ensures NearlyOpposite(V.Dot(a, b)) ==> NewExact(a, b, perp, mag) == New(a, perp)
    ensures !NearlyOpposite(V.Dot(a, b)) ==> mag != 0.0 && IsUnitVector(V.Div(V.Add(a, b), mag)) && NewExact(a, b, perp, mag) == New(a, V.Div(V.Add(a, b), mag))
  {
    if !NearlyOpposite(V.Dot(a, b)) {
      BisectorIsUnit(a, b, mag);
    }
  }

  // ---------------------------------------------------------------------
  // The cases of the source's tests, exact. The vectors of each case are
  // parameters pinned down by the requires.

  /** `new(e1, e1)` leaves (1, 1, 1) where it is. */
  lemma NoRotationExample(e1: V.Vec3f64, v: V.Vec3f64)
    requires e1 == V.Vec3f64(1.0, 0.0, 0.0) && v == V.One()
    ensures RotatedVec(New(e1, e1), v) == v
  {
    NewSelfIsIdentity(e1);
  }

  /** `new_exact(a, b)` for orthogonal unit vectors, such as e1 and e2
      (`OrthogonalAxes`), turns `a` onto `b`; `mag` is |a + b|, which is √2.
      The vectors stay symbolic: with e1 and e2 written out, the solver
      spends its effort on the irrational `mag`. */
  lemma DoubleRotationFixExample(a: V.Vec3f64, b: V.Vec3f64, perp: V.Vec3f64, mag: real)
    requires IsUnitVector(a) && IsUnitVector(b) && V.Dot(a, b) == 0.0 && V.IsMagnitude(V.Add(a, b), mag)
    ensures mag * mag == 2.0
    ensures RotatedVec(NewExact(a, b, perp, mag), a) == b
  {
    SumOfSquaresOfSum(a, b);
    NewExactTurnsOnto(a, b, perp, mag);
  }

  /** e1 and e2 are orthogonal unit vectors and |e1 + e2|² = 2. */
  lemma OrthogonalAxes(e1: V.Vec3f64, e2: V.Vec3f64)
    requires e1 == V.Vec3f64(1.0, 0.0, 0.0) && e2 == V.Vec3f64(0.0, 1.0, 0.0)
    ensures IsUnitVector(e1) && IsUnitVector(e2) && V.Dot(e1, e2) == 0.0
    ensures V.MagnitudeSquared(V.Add(e1, e2)) == 2.0
  {
  }

  /** `new_exact(e1, -e1)` takes the perpendicular branch and turns e1 onto
      -e1. */
  lemma DoubleRotationFix180Example(e1: V.Vec3f64, b: V.Vec3f64, perp: V.Vec3f64, mag: real)
    requires e1 == V.Vec3f64(1.0, 0.0, 0.0) && b == V.Vec3f64(-1.0, 0.0, 0.0)
    requires V.Dot(perp, e1) == 0.0 && IsUnitVector(perp)
    ensures IsUnitVector(e1) && IsUnitVector(b) && NearlyOpposite(V.Dot(e1, b))
    ensures RotatedVec(NewExact(e1, b, perp, mag), e1) == b
  {
    NewExactTurnsOpposite(e1, b, perp, mag);
  }

  /** `new(e1, e2)` turns by a half turn about e3; appended to itself it
      turns a full turn, which leaves e1 where it is. */
  lemma AppendExample(e1: V.Vec3f64, e2: V.Vec3f64)
    requires e1 == V.Vec3f64(1.0, 0.0, 0.0) && e2 == V.Vec3f64(0.0, 1.0, 0.0)
    ensures IsUnitVector(e1) && IsUnitVector(e2)
    ensures Appended(New(e1, e2), New(e1, e2)) == Rot3f64(-1.0, 0.0, 0.0, 0.0)
    ensures RotatedVec(Appended(New(e1, e2), New(e1, e2)), e1) == e1
  {
    OrthogonalAxes(e1, e2);
    HalfTurnAboutE3(e1, e2);
    FullTurn(Rot3f64(0.0, -1.0, 0.0, 0.0), e1);
  }

  lemma HalfTurnAboutE3(e1: V.Vec3f64, e2: V.Vec3f64)
    requires e1 == V.Vec3f64(1.0, 0.0, 0.0) && e2 == V.Vec3f64(0.0, 1.0, 0.0)
    ensures IsUnitVector(e1) && IsUnitVector(e2) && New(e1, e2) == Rot3f64(0.0, -1.0, 0.0, 0.0)
  {
  }

  /** A quarter-turn rotor appended to itself is -1, which rotates by a full
      turn. */
  lemma FullTurn(r: Rot3f64, v: V.Vec3f64)
    requires r == Rot3f64(0.0, -1.0, 0.0, 0.0)
    ensures Appended(r, r) == Rot3f64(-1.0, 0.0, 0.0, 0.0)
    ensures RotatedVec(Appended(r, r), v) == v
  {
    assert Appended(r, r) == Rot3f64(-1.0, 0.0, 0.0, 0.0);
  }

  // ---------------------------------------------------------------------
  // The order of `appended`

  /** Two unit rotors built from 3-4-5 triangles, about e3 and about e1,
      show that `a.appended(b)` does not rotate by `a` first and `b` second,
      although its documentation says so. */
  lemma AppendedOrderCounterexample(a: Rot3f64, b: Rot3f64, e1: V.Vec3f64)
    requires a == Rot3f64(0.6, 0.8, 0.0, 0.0) && b == Rot3f64(0.6, 0.0, 0.8, 0.0) && e1 == V.Vec3f64(1.0, 0.0, 0.0)
    ensures IsUnit(a) && IsUnit(b)
    ensures RotatedVec(Appended(a, b), e1) == V.Vec3f64(-0.28, -0.96, 0.0)
    ensures RotatedVec(b, RotatedVec(a, e1)) == V.Vec3f64(-0.28, 0.2688, 0.9216)
  {
    CounterexampleAppended(a, b);
    CounterexampleImage(Appended(a, b), e1);
    CounterexampleFirstImage(a, e1);
    CounterexampleSecondImage(b, RotatedVec(a, e1));
  }

  lemma CounterexampleAppended(a: Rot3f64, b: Rot3f64)
    requires a == Rot3f64(0.6, 0.8, 0.0, 0.0) && b == Rot3f64(0.6, 0.0, 0.8, 0.0)
    ensures IsUnit(a) && IsUnit(b) && Appended(a, b) == Rot3f64(0.36, 0.48, 0.48, -0.64)
  {
  }

  lemma CounterexampleImage(c: Rot3f64, e1: V.Vec3f64)
    requires c == Rot3f64(0.36, 0.48, 0.48, -0.64) && e1 == V.Vec3f64(1.0, 0.0, 0.0)
    ensures RotatedVec(c, e1) == V.Vec3f64(-0.28, -0.96, 0.0)
  {
  }

  lemma CounterexampleFirstImage(a: Rot3f64, e1: V.Vec3f64)
    requires a == Rot3f64(0.6, 0.8, 0.0, 0.0) && e1 == V.Vec3f64(1.0, 0.0, 0.0)
    ensures RotatedVec(a, e1) == V.Vec3f64(-0.28, -0.96, 0.0)
  {
  }

  lemma CounterexampleSecondImage(b: Rot3f64, u: V.Vec3f64)
    requires b == Rot3f64(0.6, 0.0, 0.8, 0.0) && u == V.Vec3f64(-0.28, -0.96, 0.0)
    ensures RotatedVec(b, u) == V.Vec3f64(-0.28, 0.2688, 0.9216)
  {
  }

  /** The combination the documentation of `appended` describes: first
      `first` (the receiver), then `r`. It is the geometric product
      r first. */
  function AppendedSelfFirst(first: Rot3f64, r: Rot3f64): Rot3f64 {
    Appended(r, first)
  }

  /** `AppendedSelfFirst(first, r)` rotates by `first` and then by `r`. */
  lemma AppendedSelfFirstRotation(first: Rot3f64, r: Rot3f64, v: V.Vec3f64)
    ensures RotatedVec(AppendedSelfFirst(first, r), v) == RotatedVec(r, RotatedVec(first, v))
  {
    AppendedRotation(r, first, v);
  }
}
