/** Facts about the scalar type that every vector, matrix and rotor file shares.

    The library computes with `f32`/`f64`; here every component is a `real`.
    The square root that the library takes from `f64::sqrt`/`f32::sqrt` is not
    computed: an operation that calls `sqrt(x)` receives the value as an
    argument `r` of which it requires `IsRoot(x, r)`.

    The sign lemmas take each product as a separate argument (`p == a * b`):
    stated that way the solver reasons about the product as one quantity. */
module Scalars {

  /** `r` is the non-negative square root of `x`. */
  predicate IsRoot(x: real, r: real) {
    r >= 0.0 && r * r == x
  }

  /** The root of a positive number is positive, so dividing by it is defined. */
  lemma RootOfPositive(x: real, r: real)
    requires IsRoot(x, r) && x > 0.0
    ensures r > 0.0
  {
  }

  lemma ProductPositive(a: real, b: real, p: real)
    requires a > 0.0 && b > 0.0 && p == a * b
    ensures p > 0.0
  {
  }

  lemma SquarePositive(a: real, p: real)
    requires p == a * a && a != 0.0
    ensures p > 0.0
  {
    if a > 0.0 {
      ProductPositive(a, a, p);
    } else {
      assert p == (-a) * (-a);
      ProductPositive(-a, -a, p);
    }
  }

  /** A square is non-negative, and vanishes only at zero. */
  lemma Square(a: real, p: real)
    requires p == a * a
    ensures p >= 0.0
    ensures p == 0.0 <==> a == 0.0
  {
    if a != 0.0 {
      SquarePositive(a, p);
    }
  }

  lemma QuotientTimesDivisor(a: real, m: real)
    requires m != 0.0
    ensures (a / m) * m == a
  {
  }

  lemma ProductOfOnes(x: real, y: real, p: real)
    requires x == 1.0 && y == 1.0 && p == x * y
    ensures p == 1.0
  {
  }

  /** A sum of four squares is non-negative, and vanishes only when every
      term does. */
  lemma SumOfSquares(a: real, b: real, c: real, d: real)
    ensures a * a + b * b + c * c + d * d >= 0.0
    ensures a * a + b * b + c * c + d * d == 0.0 <==> a == 0.0 && b == 0.0 && c == 0.0 && d == 0.0
  {
    Square(a, a * a);
    Square(b, b * b);
    Square(c, c * c);
    Square(d, d * d);
  }

  /** If `s * k == k` for a positive `k`, then `s` is one. */
  lemma FactorOne(s: real, k: real, t: real)
    requires k > 0.0 && t == s * k && t == k
    ensures s == 1.0
  {
    if s > 1.0 {
      ProductPositive(s - 1.0, k, (s - 1.0) * k);
    } else if s < 1.0 {
      ProductPositive(1.0 - s, k, (1.0 - s) * k);
    }
  }

  /** Multiplying a square of a quotient by the square of the divisor gives
      back the square of the dividend. */
  lemma QuotientSquared(a: real, m: real, q: real, mm: real)
    requires m != 0.0 && q == a / m && mm == m * m
    ensures (q * q) * mm == a * a
  {
    assert q * m == a;
    assert (q * q) * (m * m) == (q * m) * (q * m);
  }

  lemma Distribute(a: real, b: real, sum: real, k: real)
    requires sum == a + b
    ensures sum * k == a * k + b * k
  {
  }

  /** `a * b`, the product of two components. The matrix files write their
      scaled entries with it so that the solver treats each scaled entry as a
      single quantity. */
  function Product(a: real, b: real): real {
    a * b
  }

  /** `Distribute`, for products written with `Product`. */
  lemma ProductDistributes(a: real, b: real, sum: real, k: real)
    requires sum == a + b
    ensures Product(sum, k) == Product(a, k) + Product(b, k)
  {
  }

  lemma DistributeFour(s1: real, s2: real, s3: real, s4: real, k: real)
    ensures (s1 + s2 + s3 + s4) * k == s1 * k + s2 * k + s3 * k + s4 * k
  {
  }

  lemma SumOfEquals(t: real, p1: real, p2: real, p3: real, p4: real, s1: real, s2: real, s3: real, s4: real, k: real)
    requires t == p1 + p2 + p3 + p4
    requires p1 == s1 && p2 == s2 && p3 == s3 && p4 == s4
    requires k == s1 + s2 + s3 + s4
    ensures t == k
  {
  }

  /** Dividing four components by the root of their sum of squares leaves a
      sum of squares equal to one: what every `normalize` relies on. */
  lemma UnitQuotients(a: real, b: real, c: real, d: real, m: real)
    requires IsRoot(a * a + b * b + c * c + d * d, m) && m != 0.0
    ensures (a / m) * (a / m) + (b / m) * (b / m) + (c / m) * (c / m) + (d / m) * (d / m) == 1.0
  {
    var qa, qb, qc, qd, mm := a / m, b / m, c / m, d / m, m * m;
    QuotientSquared(a, m, qa, mm);
    QuotientSquared(b, m, qb, mm);
    QuotientSquared(c, m, qc, mm);
    QuotientSquared(d, m, qd, mm);
    var sum := qa * qa + qb * qb + qc * qc + qd * qd;
    DistributeFour(qa * qa, qb * qb, qc * qc, qd * qd, mm);
    SumOfEquals(sum * mm, (qa * qa) * mm, (qb * qb) * mm, (qc * qc) * mm, (qd * qd) * mm, a * a, b * b, c * c, d * d, mm);
    SquarePositive(m, mm);
    FactorOne(sum, mm, sum * mm);
  }
}
