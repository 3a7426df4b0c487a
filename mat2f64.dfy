/** The 2x2 matrix of src/mat/mat2f64.rs, indexed in row-major order. */
module Mat2f64 {
  import opened Scalars
  import V = Vec2f64
  import Id = Mat2f64Identities

  /** The type of `[f64; 2]`, one row (or column). */
  type Row2 = s: seq<real> | |s| == 2 witness [0.0, 0.0]

  /** The type of `[[f64; 2]; 2]`. */
  type Rows2 = s: seq<Row2> | |s| == 2 witness [ZeroRow, ZeroRow]

  const ZeroRow: Row2 := [0.0, 0.0]

  /** `new(rows)` is the constructor: `rows[i][j]` is the entry in row `i`
      and column `j`. */
  datatype Mat2f64 = Mat2f64(rows: Rows2)

  /** `new_from_cols(cols)`: `cols[j]` is column `j`. */
  function NewFromCols(cols: Rows2): Mat2f64 {
    Transposed(Mat2f64(cols))
  }

  function Zero(): Mat2f64 {
    Mat2f64([[0.0, 0.0], [0.0, 0.0]])
  }

  function Identity(): Mat2f64 {
    Mat2f64([[1.0, 0.0], [0.0, 1.0]])
  }

  function Transposed(m: Mat2f64): Mat2f64 {
    Mat2f64([[m.rows[0][0], m.rows[1][0]], [m.rows[0][1], m.rows[1][1]]])
  }

  function AsRowMajor(m: Mat2f64): Rows2 {
    m.rows
  }

  function AsColMajor(m: Mat2f64): Rows2 {
    Transposed(m).rows
  }

  /** `m[i]`, row `i`; an index of 2 or more panics in the source. */
  function Index(m: Mat2f64, i: nat): Row2
    requires i < 2
  {
    m.rows[i]
  }

  function Add(a: Mat2f64, b: Mat2f64): Mat2f64 {
    Mat2f64([[a.rows[0][0] + b.rows[0][0], a.rows[0][1] + b.rows[0][1]], [a.rows[1][0] + b.rows[1][0], a.rows[1][1] + b.rows[1][1]]])
  }

  function Sub(a: Mat2f64, b: Mat2f64): Mat2f64 {
    Mat2f64([[a.rows[0][0] - b.rows[0][0], a.rows[0][1] - b.rows[0][1]], [a.rows[1][0] - b.rows[1][0], a.rows[1][1] - b.rows[1][1]]])
  }

  /** `m * scalar`: every entry multiplied by `scalar`. */
  function Scale(m: Mat2f64, scalar: real): Mat2f64 {
    Mat2f64([[Product(m.rows[0][0], scalar), Product(m.rows[0][1], scalar)], [Product(m.rows[1][0], scalar), Product(m.rows[1][1], scalar)]])
  }

  /** `scalar * m`, which the source computes as `m * scalar`. */
  function ScaleLeft(scalar: real, m: Mat2f64): Mat2f64 {
    Scale(m, scalar)
  }

  /** `m / scalar`; scaling the quotient back by `scalar` gives `m`. */
  function Div(m: Mat2f64, scalar: real): (r: Mat2f64)
    requires scalar != 0.0
    ensures Scale(r, scalar) == m
  {
    var r := Mat2f64([[m.rows[0][0] / scalar, m.rows[0][1] / scalar], [m.rows[1][0] / scalar, m.rows[1][1] / scalar]]);
    QuotientTimesDivisor(m.rows[0][0], scalar);
    QuotientTimesDivisor(m.rows[0][1], scalar);
    QuotientTimesDivisor(m.rows[1][0], scalar);
    QuotientTimesDivisor(m.rows[1][1], scalar);
    assert Scale(r, scalar).rows[0][0] == m.rows[0][0];
    assert Scale(r, scalar).rows[0][1] == m.rows[0][1];
    assert Scale(r, scalar).rows[1][0] == m.rows[1][0];
    assert Scale(r, scalar).rows[1][1] == m.rows[1][1];
    assert Scale(r, scalar).rows[0] == m.rows[0];
    assert Scale(r, scalar).rows[1] == m.rows[1];
    r
  }

  /** The matrix product `a * b`. */
  function Mul(a: Mat2f64, b: Mat2f64): Mat2f64 {
    Mat2f64([[a.rows[0][0] * b.rows[0][0] + a.rows[0][1] * b.rows[1][0], a.rows[0][0] * b.rows[0][1] + a.rows[0][1] * b.rows[1][1]], [a.rows[1][0] * b.rows[0][0] + a.rows[1][1] * b.rows[1][0], a.rows[1][0] * b.rows[0][1] + a.rows[1][1] * b.rows[1][1]]])
  }

  /** `m * v`, the matrix applied to a column vector. */
  function MulVec(m: Mat2f64, v: V.Vec2f64): V.Vec2f64 {
    V.Vec2f64([m.rows[0][0] * v.coords[0] + m.rows[0][1] * v.coords[1], m.rows[1][0] * v.coords[0] + m.rows[1][1] * v.coords[1]])
  }

  /** Row `i` as a vector. */
  function RowVector(m: Mat2f64, i: nat): V.Vec2f64
    requires i < 2
  {
    V.Vec2f64([m.rows[i][0], m.rows[i][1]])
  }

  /** Column `j` as a vector. */
  function ColumnVector(m: Mat2f64, j: nat): V.Vec2f64
    requires j < 2
  {
    V.Vec2f64([m.rows[0][j], m.rows[1][j]])
  }

  /** The unit vector along axis `j`. */
  function UnitVector(j: nat): V.Vec2f64
    requires j < 2
  {
    V.Vec2f64([if j == 0 then 1.0 else 0.0, if j == 1 then 1.0 else 0.0])
  }

  /** Transposing swaps rows and columns. */
  lemma TransposedEntries(m: Mat2f64)
    ensures forall i, j | 0 <= i < 2 && 0 <= j < 2 :: Transposed(m).rows[i][j] == m.rows[j][i]
  {
  }

  /** Transposing twice gives the matrix back. */
  lemma TransposedInvolution(m: Mat2f64)
    ensures Transposed(Transposed(m)) == m
  {
    assert Transposed(Transposed(m)).rows[0] == m.rows[0];
    assert Transposed(Transposed(m)).rows[1] == m.rows[1];
  }

  /** `cols[j]` becomes column `j` of `new_from_cols(cols)`. */
  lemma NewFromColsColumns(cols: Rows2)
    ensures forall i, j | 0 <= i < 2 && 0 <= j < 2 :: NewFromCols(cols).rows[i][j] == cols[j][i]
  {
  }

  /** `as_col_major` and `new_from_cols` undo each other. */
  lemma ColMajorRoundTrip(cols: Rows2, m: Mat2f64)
    ensures AsColMajor(NewFromCols(cols)) == cols
    ensures NewFromCols(AsColMajor(m)) == m
  {
    TransposedInvolution(Mat2f64(cols));
    TransposedInvolution(m);
  }

  /** `as_row_major` returns row `i` at index `i`, `as_col_major` column `j` at index `j`. */
  lemma RowMajorEntries(m: Mat2f64)
    ensures forall i, j | 0 <= i < 2 && 0 <= j < 2 :: AsRowMajor(m)[i][j] == m.rows[i][j] && AsColMajor(m)[i][j] == m.rows[j][i]
  {
    assert AsColMajor(m) == Transposed(m).rows;
    TransposedEntries(m);
  }

  lemma MulEntry00(a: Mat2f64, b: Mat2f64)
    ensures Mul(a, b).rows[0][0] == a.rows[0][0] * b.rows[0][0] + a.rows[0][1] * b.rows[1][0]
  {
  }

  lemma ProductEntry00(a: Mat2f64, b: Mat2f64)
    ensures Mul(a, b).rows[0][0] == V.Dot(RowVector(a, 0), ColumnVector(b, 0))
  {
    MulEntry00(a, b);
  }

  lemma MulEntry01(a: Mat2f64, b: Mat2f64)
    ensures Mul(a, b).rows[0][1] == a.rows[0][0] * b.rows[0][1] + a.rows[0][1] * b.rows[1][1]
  {
  }

  lemma ProductEntry01(a: Mat2f64, b: Mat2f64)
    ensures Mul(a, b).rows[0][1] == V.Dot(RowVector(a, 0), ColumnVector(b, 1))
  {
    MulEntry01(a, b);
  }

  lemma MulEntry10(a: Mat2f64, b: Mat2f64)
    ensures Mul(a, b).rows[1][0] == a.rows[1][0] * b.rows[0][0] + a.rows[1][1] * b.rows[1][0]
  {
  }

  lemma ProductEntry10(a: Mat2f64, b: Mat2f64)
    ensures Mul(a, b).rows[1][0] == V.Dot(RowVector(a, 1), ColumnVector(b, 0))
  {
    MulEntry10(a, b);
  }

  lemma MulEntry11(a: Mat2f64, b: Mat2f64)
    ensures Mul(a, b).rows[1][1] == a.rows[1][0] * b.rows[0][1] + a.rows[1][1] * b.rows[1][1]
  {
  }

  lemma ProductEntry11(a: Mat2f64, b: Mat2f64)
    ensures Mul(a, b).rows[1][1] == V.Dot(RowVector(a, 1), ColumnVector(b, 1))
  {
    MulEntry11(a, b);
  }

  /** Entry (i, j) of `a * b` is the dot product of row `i` of `a` and column
      `j` of `b`. */
  lemma ProductEntry(a: Mat2f64, b: Mat2f64, i: nat, j: nat)
    requires i < 2 && j < 2
    ensures Mul(a, b).rows[i][j] == V.Dot(RowVector(a, i), ColumnVector(b, j))
  {
    if i == 0 && j == 0 {
      ProductEntry00(a, b);
    } else if i == 0 && j == 1 {
      ProductEntry01(a, b);
    } else if i == 1 && j == 0 {
      ProductEntry10(a, b);
    } else {
      ProductEntry11(a, b);
    }
  }

  lemma MulVecComponent0(m: Mat2f64, v: V.Vec2f64)
    ensures MulVec(m, v).coords[0] == m.rows[0][0] * v.coords[0] + m.rows[0][1] * v.coords[1]
  {
  }

  lemma DotRow0(m: Mat2f64, v: V.Vec2f64)
    ensures V.Dot(RowVector(m, 0), v) == m.rows[0][0] * v.coords[0] + m.rows[0][1] * v.coords[1]
  {
  }

  lemma MulVecComponent1(m: Mat2f64, v: V.Vec2f64)
    ensures MulVec(m, v).coords[1] == m.rows[1][0] * v.coords[0] + m.rows[1][1] * v.coords[1]
  {
  }

  lemma DotRow1(m: Mat2f64, v: V.Vec2f64)
    ensures V.Dot(RowVector(m, 1), v) == m.rows[1][0] * v.coords[0] + m.rows[1][1] * v.coords[1]
  {
  }

  /** Component `i` of `m * v` is the dot product of row `i` with `v`. */
  lemma MulVecRows(m: Mat2f64, v: V.Vec2f64)
    ensures MulVec(m, v) == V.Vec2f64([V.Dot(RowVector(m, 0), v), V.Dot(RowVector(m, 1), v)])
  {
    MulVecComponent0(m, v);
    MulVecComponent1(m, v);
    DotRow0(m, v);
    DotRow1(m, v);
    assert MulVec(m, v).coords == V.Vec2f64([V.Dot(RowVector(m, 0), v), V.Dot(RowVector(m, 1), v)]).coords;
  }

  /** `m` applied to the unit vector along axis `j` is column `j` of `m`. */
  lemma MulVecUnit(m: Mat2f64, j: nat)
    requires j < 2
    ensures MulVec(m, UnitVector(j)) == ColumnVector(m, j)
  {
    if j == 0 {
      assert UnitVector(j) == V.Vec2f64([1.0, 0.0]);
      MulVecComponent0(m, V.Vec2f64([1.0, 0.0]));
      MulVecComponent1(m, V.Vec2f64([1.0, 0.0]));
      assert MulVec(m, V.Vec2f64([1.0, 0.0])).coords[0] == m.rows[0][0];
      assert MulVec(m, V.Vec2f64([1.0, 0.0])).coords[1] == m.rows[1][0];
      assert MulVec(m, V.Vec2f64([1.0, 0.0])).coords == ColumnVector(m, 0).coords;
    } else {
      assert UnitVector(j) == V.Vec2f64([0.0, 1.0]);
      MulVecComponent0(m, V.Vec2f64([0.0, 1.0]));
      MulVecComponent1(m, V.Vec2f64([0.0, 1.0]));
      assert MulVec(m, V.Vec2f64([0.0, 1.0])).coords[0] == m.rows[0][1];
      assert MulVec(m, V.Vec2f64([0.0, 1.0])).coords[1] == m.rows[1][1];
      assert MulVec(m, V.Vec2f64([0.0, 1.0])).coords == ColumnVector(m, 1).coords;
    }
  }

  /** Two matrices with the same columns are equal. */
  lemma ColumnsDetermine(m: Mat2f64, k: Mat2f64)
    requires forall j | 0 <= j < 2 :: ColumnVector(m, j) == ColumnVector(k, j)
    ensures m == k
  {
    assert ColumnVector(m, 0) == ColumnVector(k, 0);
    assert ColumnVector(m, 1) == ColumnVector(k, 1);
    assert m.rows[0][0] == ColumnVector(m, 0).coords[0];
    assert m.rows[0][1] == ColumnVector(m, 1).coords[0];
    assert m.rows[1][0] == ColumnVector(m, 0).coords[1];
    assert m.rows[1][1] == ColumnVector(m, 1).coords[1];
    assert m.rows[0] == k.rows[0];
    assert m.rows[1] == k.rows[1];
  }

  lemma ProductAppliedLeft0(a: Mat2f64, b: Mat2f64, v: V.Vec2f64)
    ensures MulVec(Mul(a, b), v).coords[0] == (a.rows[0][0] * b.rows[0][0] + a.rows[0][1] * b.rows[1][0]) * v.coords[0] + (a.rows[0][0] * b.rows[0][1] + a.rows[0][1] * b.rows[1][1]) * v.coords[1]
  {
    MulVecComponent0(Mul(a, b), v);
    MulEntry00(a, b);
    MulEntry01(a, b);
  }

  lemma ProductAppliedRight0(a: Mat2f64, b: Mat2f64, v: V.Vec2f64)
    ensures MulVec(a, MulVec(b, v)).coords[0] == a.rows[0][0] * (b.rows[0][0] * v.coords[0] + b.rows[0][1] * v.coords[1]) + a.rows[0][1] * (b.rows[1][0] * v.coords[0] + b.rows[1][1] * v.coords[1])
  {
    MulVecComponent0(a, MulVec(b, v));
    MulVecComponent0(b, v);
    MulVecComponent1(b, v);
  }

  lemma ProductApplied0(a: Mat2f64, b: Mat2f64, v: V.Vec2f64)
    ensures MulVec(Mul(a, b), v).coords[0] == MulVec(a, MulVec(b, v)).coords[0]
  {
    ProductAppliedLeft0(a, b, v);
    ProductAppliedRight0(a, b, v);
    Id.ProductApplied(a.rows[0][0], a.rows[0][1], b.rows[0][0], b.rows[0][1], b.rows[1][0], b.rows[1][1], v.coords[0], v.coords[1]);
  }

  lemma ProductAppliedLeft1(a: Mat2f64, b: Mat2f64, v: V.Vec2f64)
    ensures MulVec(Mul(a, b), v).coords[1] == (a.rows[1][0] * b.rows[0][0] + a.rows[1][1] * b.rows[1][0]) * v.coords[0] + (a.rows[1][0] * b.rows[0][1] + a.rows[1][1] * b.rows[1][1]) * v.coords[1]
  {
    MulVecComponent1(Mul(a, b), v);
    MulEntry10(a, b);
    MulEntry11(a, b);
  }

  lemma ProductAppliedRight1(a: Mat2f64, b: Mat2f64, v: V.Vec2f64)
    ensures MulVec(a, MulVec(b, v)).coords[1] == a.rows[1][0] * (b.rows[0][0] * v.coords[0] + b.rows[0][1] * v.coords[1]) + a.rows[1][1] * (b.rows[1][0] * v.coords[0] + b.rows[1][1] * v.coords[1])
  {
    MulVecComponent1(a, MulVec(b, v));
    MulVecComponent0(b, v);
    MulVecComponent1(b, v);
  }

  lemma ProductApplied1(a: Mat2f64, b: Mat2f64, v: V.Vec2f64)
    ensures MulVec(Mul(a, b), v).coords[1] == MulVec(a, MulVec(b, v)).coords[1]
  {
    ProductAppliedLeft1(a, b, v);
    ProductAppliedRight1(a, b, v);
    Id.ProductApplied(a.rows[1][0], a.rows[1][1], b.rows[0][0], b.rows[0][1], b.rows[1][0], b.rows[1][1], v.coords[0], v.coords[1]);
  }

  /** Applying `a * b` to a vector applies `b`, then `a`. */
  lemma MulVecOfProduct(a: Mat2f64, b: Mat2f64, v: V.Vec2f64)
    ensures MulVec(Mul(a, b), v) == MulVec(a, MulVec(b, v))
  {
    ProductApplied0(a, b, v);
    ProductApplied1(a, b, v);
    assert MulVec(Mul(a, b), v).coords == MulVec(a, MulVec(b, v)).coords;
  }

  lemma TransposedProductEntry00(a: Mat2f64, b: Mat2f64)
    ensures Transposed(Mul(a, b)).rows[0][0] == Mul(Transposed(b), Transposed(a)).rows[0][0]
  {
  }

  lemma TransposedProductEntry01(a: Mat2f64, b: Mat2f64)
    ensures Transposed(Mul(a, b)).rows[0][1] == Mul(Transposed(b), Transposed(a)).rows[0][1]
  {
  }

  lemma TransposedProductEntry10(a: Mat2f64, b: Mat2f64)
    ensures Transposed(Mul(a, b)).rows[1][0] == Mul(Transposed(b), Transposed(a)).rows[1][0]
  {
  }

  lemma TransposedProductEntry11(a: Mat2f64, b: Mat2f64)
    ensures Transposed(Mul(a, b)).rows[1][1] == Mul(Transposed(b), Transposed(a)).rows[1][1]
  {
  }

  /** The transpose of a product is the product of the transposes, in reverse order. */
  lemma TransposedOfProduct(a: Mat2f64, b: Mat2f64)
    ensures Transposed(Mul(a, b)) == Mul(Transposed(b), Transposed(a))
  {
    TransposedProductEntry00(a, b);
    TransposedProductEntry01(a, b);
    TransposedProductEntry10(a, b);
    TransposedProductEntry11(a, b);
    assert Transposed(Mul(a, b)).rows[0] == Mul(Transposed(b), Transposed(a)).rows[0];
    assert Transposed(Mul(a, b)).rows[1] == Mul(Transposed(b), Transposed(a)).rows[1];
  }

  /** Subtracting what was added gives the matrix back. */
  lemma AddSubInverse(m: Mat2f64, k: Mat2f64)
    ensures Sub(Add(m, k), k) == m
  {
    assert Sub(Add(m, k), k).rows[0] == m.rows[0];
    assert Sub(Add(m, k), k).rows[1] == m.rows[1];
  }

  lemma AddCommutes(m: Mat2f64, k: Mat2f64)
    ensures Add(m, k) == Add(k, m)
  {
  }

  /** Scaling distributes over `+`. */
  lemma ScaleDistributes(m: Mat2f64, k: Mat2f64, scalar: real)
    ensures Scale(Add(m, k), scalar) == Add(Scale(m, scalar), Scale(k, scalar))
  {
    ProductDistributes(m.rows[0][0], k.rows[0][0], Add(m, k).rows[0][0], scalar);
    ProductDistributes(m.rows[0][1], k.rows[0][1], Add(m, k).rows[0][1], scalar);
    ProductDistributes(m.rows[1][0], k.rows[1][0], Add(m, k).rows[1][0], scalar);
    ProductDistributes(m.rows[1][1], k.rows[1][1], Add(m, k).rows[1][1], scalar);
    assert Scale(Add(m, k), scalar).rows[0][0] == Add(Scale(m, scalar), Scale(k, scalar)).rows[0][0];
    assert Scale(Add(m, k), scalar).rows[0][1] == Add(Scale(m, scalar), Scale(k, scalar)).rows[0][1];
    assert Scale(Add(m, k), scalar).rows[1][0] == Add(Scale(m, scalar), Scale(k, scalar)).rows[1][0];
    assert Scale(Add(m, k), scalar).rows[1][1] == Add(Scale(m, scalar), Scale(k, scalar)).rows[1][1];
    assert Scale(Add(m, k), scalar).rows[0] == Add(Scale(m, scalar), Scale(k, scalar)).rows[0];
    assert Scale(Add(m, k), scalar).rows[1] == Add(Scale(m, scalar), Scale(k, scalar)).rows[1];
  }

  /** Column `j` of `(a * b) * c` is column `j` of `a * (b * c)`. */
  lemma AssociativeColumn(a: Mat2f64, b: Mat2f64, c: Mat2f64, j: nat)
    requires j < 2
    ensures ColumnVector(Mul(Mul(a, b), c), j) == ColumnVector(Mul(a, Mul(b, c)), j)
  {
    var u := UnitVector(j);
    calc {
      ColumnVector(Mul(Mul(a, b), c), j);
    == { MulVecUnit(Mul(Mul(a, b), c), j); }
      MulVec(Mul(Mul(a, b), c), u);
    == { MulVecOfProduct(Mul(a, b), c, u); }
      MulVec(Mul(a, b), MulVec(c, u));
    == { MulVecOfProduct(a, b, MulVec(c, u)); }
      MulVec(a, MulVec(b, MulVec(c, u)));
    == { MulVecOfProduct(b, c, u); }
      MulVec(a, MulVec(Mul(b, c), u));
    == { MulVecOfProduct(a, Mul(b, c), u); }
      MulVec(Mul(a, Mul(b, c)), u);
    == { MulVecUnit(Mul(a, Mul(b, c)), j); }
      ColumnVector(Mul(a, Mul(b, c)), j);
    }
  }

  /** The matrix product is associative. */
  lemma MulAssociative(a: Mat2f64, b: Mat2f64, c: Mat2f64)
    ensures Mul(Mul(a, b), c) == Mul(a, Mul(b, c))
  {
    forall j | 0 <= j < 2
      ensures ColumnVector(Mul(Mul(a, b), c), j) == ColumnVector(Mul(a, Mul(b, c)), j)
    {
      AssociativeColumn(a, b, c, j);
    }
    ColumnsDetermine(Mul(Mul(a, b), c), Mul(a, Mul(b, c)));
  }

  /** `zero()` is neutral for `+`. */
  lemma AddZero(m: Mat2f64)
    ensures Add(m, Zero()) == m
  {
    assert Add(m, Zero()).rows[0] == m.rows[0];
    assert Add(m, Zero()).rows[1] == m.rows[1];
  }

  /** `identity()` is neutral for the matrix product, on the left ... */
  lemma IdentityLeft(m: Mat2f64)
    ensures Mul(Identity(), m) == m
  {
    assert Identity().rows[0] == [1.0, 0.0];
    assert Identity().rows[1] == [0.0, 1.0];
    MulEntry00(Identity(), m);
    MulEntry01(Identity(), m);
    MulEntry10(Identity(), m);
    MulEntry11(Identity(), m);
    assert Mul(Identity(), m).rows[0][0] == m.rows[0][0];
    assert Mul(Identity(), m).rows[0][1] == m.rows[0][1];
    assert Mul(Identity(), m).rows[1][0] == m.rows[1][0];
    assert Mul(Identity(), m).rows[1][1] == m.rows[1][1];
    assert Mul(Identity(), m).rows[0] == m.rows[0];
    assert Mul(Identity(), m).rows[1] == m.rows[1];
  }

  /** ... and on the right. */
  lemma IdentityRight(m: Mat2f64)
    ensures Mul(m, Identity()) == m
  {
    assert Identity().rows[0] == [1.0, 0.0];
    assert Identity().rows[1] == [0.0, 1.0];
    MulEntry00(m, Identity());
    MulEntry01(m, Identity());
    MulEntry10(m, Identity());
    MulEntry11(m, Identity());
    assert Mul(m, Identity()).rows[0][0] == m.rows[0][0];
    assert Mul(m, Identity()).rows[0][1] == m.rows[0][1];
    assert Mul(m, Identity()).rows[1][0] == m.rows[1][0];
    assert Mul(m, Identity()).rows[1][1] == m.rows[1][1];
    assert Mul(m, Identity()).rows[0] == m.rows[0];
    assert Mul(m, Identity()).rows[1] == m.rows[1];
  }

  /** `identity()` leaves every vector where it is. */
  lemma IdentityApplied(v: V.Vec2f64)
    ensures MulVec(Identity(), v) == v
  {
    assert Identity().rows[0] == [1.0, 0.0];
    assert Identity().rows[1] == [0.0, 1.0];
    MulVecComponent0(Identity(), v);
    MulVecComponent1(Identity(), v);
    assert MulVec(Identity(), v).coords[0] == v.coords[0];
    assert MulVec(Identity(), v).coords[1] == v.coords[1];
    assert MulVec(Identity(), v).coords == v.coords;
  }

  /** The source's tests of `new`, `new_from_cols`, `transposed`, `as_row_major`
      and `as_col_major`. */
  lemma CreationExamples(m: Mat2f64, cols: Rows2)
    requires m == Mat2f64([[1.0, 2.0], [3.0, 4.0]])
    requires cols == [[1.0, 3.0], [2.0, 4.0]]
    ensures NewFromCols(cols) == m
    ensures Transposed(m) == Mat2f64(cols)
    ensures AsRowMajor(m) == m.rows && AsColMajor(m) == cols
  {
    TransposedInvolution(Mat2f64(cols));
  }

  /** The source's tests of `+`, `-`, the scalar operators and both products. */
  lemma ArithmeticExamples(m: Mat2f64, k: Mat2f64, v: V.Vec2f64)
    requires m == Mat2f64([[1.0, 2.0], [3.0, 4.0]])
    requires k == Mat2f64([[5.0, 6.0], [7.0, 8.0]])
    requires v == V.Vec2f64([2.0, 3.0])
    ensures Add(k, m) == Mat2f64([[6.0, 8.0], [10.0, 12.0]])
    ensures Sub(m, k) == Mat2f64([[-4.0, -4.0], [-4.0, -4.0]])
    ensures Scale(m, 3.0) == ScaleLeft(3.0, m) == Mat2f64([[3.0, 6.0], [9.0, 12.0]])
    ensures Div(m, 3.0) == Mat2f64([[1.0 / 3.0, 2.0 / 3.0], [3.0 / 3.0, 4.0 / 3.0]])
    ensures Mul(m, k) == Mat2f64([[19.0, 22.0], [43.0, 50.0]])
    ensures MulVec(m, v) == V.Vec2f64([8.0, 18.0])
  {
  }

  /** A `let mut` binding of a `Mat2f64`: its entries, in row-major order,
      and the `&mut self` methods that write into them. */
  class Mat2f64Var {
    const entries: array2<real>

    predicate Valid()
      reads this
    {
      entries.Length0 == 2 && entries.Length1 == 2
    }

    function Value(): Mat2f64
      requires Valid()
      reads this, entries
    {
      Mat2f64([[entries[0, 0], entries[0, 1]], [entries[1, 0], entries[1, 1]]])
    }

    constructor (m: Mat2f64)
      ensures Valid() && fresh(entries) && Value() == m
    {
      entries := new real[2, 2];
      new;
      Store(m);
    }

    /** `*self = m`: every entry overwritten at once. */
    method Store(m: Mat2f64)
      requires Valid()
      modifies entries
      ensures Valid() && Value() == m
    {
      forall i, j | 0 <= i < 2 && 0 <= j < 2 {
        entries[i, j] := m.rows[i][j];
      }
      assert Value().rows[0] == m.rows[0];
      assert Value().rows[1] == m.rows[1];
    }

    /** `m[i][j] = x`, through `IndexMut`. */
    method SetEntry(i: nat, j: nat, x: real)
      requires Valid() && i < 2 && j < 2
      modifies entries
      ensures Valid() && Value() == Mat2f64(old(Value()).rows[i := old(Value()).rows[i][j := x]])
    {
      ghost var before := Value();
      entries[i, j] := x;
      ghost var after := Mat2f64(before.rows[i := before.rows[i][j := x]]);
      assert Value().rows[0] == after.rows[0];
      assert Value().rows[1] == after.rows[1];
    }

    /** `transpose`: `*self = self.transposed()`. */
    method Transpose()
      requires Valid()
      modifies entries
      ensures Valid() && Value() == Transposed(old(Value()))
    {
      Store(Transposed(Value()));
    }

    /** `*self = *self + rhs`. */
    method AddAssign(rhs: Mat2f64)
      requires Valid()
      modifies entries
      ensures Valid() && Value() == Add(old(Value()), rhs)
    {
      Store(Add(Value(), rhs));
    }

    /** `*self = *self - rhs`. */
    method SubAssign(rhs: Mat2f64)
      requires Valid()
      modifies entries
      ensures Valid() && Value() == Sub(old(Value()), rhs)
    {
      Store(Sub(Value(), rhs));
    }

    /** `*self = *self * scalar`. */
    method MulAssign(scalar: real)
      requires Valid()
      modifies entries
      ensures Valid() && Value() == Scale(old(Value()), scalar)
    {
      Store(Scale(Value(), scalar));
    }

    /** `*self = *self / scalar`. */
    method DivAssign(scalar: real)
      requires Valid() && scalar != 0.0
      modifies entries
      ensures Valid() && Value() == Div(old(Value()), scalar)
    {
      Store(Div(Value(), scalar));
    }

    /** `*self = *self * rhs`, the matrix product. */
    method MulAssignMat(rhs: Mat2f64)
      requires Valid()
      modifies entries
      ensures Valid() && Value() == Mul(old(Value()), rhs)
    {
      Store(Mul(Value(), rhs));
    }
  }
}

/** Polynomial identities behind the laws of module Mat2f64, stated over
    plain entries. */
module Mat2f64Identities {
  lemma ProductApplied(a0: real, a1: real, b00: real, b01: real, b10: real, b11: real, v0: real, v1: real)
    ensures (a0 * b00 + a1 * b10) * v0 + (a0 * b01 + a1 * b11) * v1
         == a0 * (b00 * v0 + b01 * v1) + a1 * (b10 * v0 + b11 * v1)
  {
  }
}
