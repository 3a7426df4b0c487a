/** The 4x4 matrix of src/mat/mat4f64.rs, indexed in row-major order. */
module Mat4f64 {
  import opened Scalars
  import V = Vec4f64
  import Id = Mat4f64Identities

  /** The type of `[f64; 4]`, one row (or column). */
  type Row4 = s: seq<real> | |s| == 4 witness [0.0, 0.0, 0.0, 0.0]

  /** The type of `[[f64; 4]; 4]`. */
  type Rows4 = s: seq<Row4> | |s| == 4 witness [ZeroRow, ZeroRow, ZeroRow, ZeroRow]

  const ZeroRow: Row4 := [0.0, 0.0, 0.0, 0.0]

  /** `new(rows)` is the constructor: `rows[i][j]` is the entry in row `i`
      and column `j`. */
  datatype Mat4f64 = Mat4f64(rows: Rows4)

  /** `new_from_cols(cols)`: `cols[j]` is column `j`. */
  function NewFromCols(cols: Rows4): Mat4f64 {
    Transposed(Mat4f64(cols))
  }

  function Zero(): Mat4f64 {
    Mat4f64([[0.0, 0.0, 0.0, 0.0], [0.0, 0.0, 0.0, 0.0], [0.0, 0.0, 0.0, 0.0], [0.0, 0.0, 0.0, 0.0]])
  }

  function Identity(): Mat4f64 {
    Mat4f64([[1.0, 0.0, 0.0, 0.0], [0.0, 1.0, 0.0, 0.0], [0.0, 0.0, 1.0, 0.0], [0.0, 0.0, 0.0, 1.0]])
  }

  function Transposed(m: Mat4f64): Mat4f64 {
    Mat4f64([[m.rows[0][0], m.rows[1][0], m.rows[2][0], m.rows[3][0]], [m.rows[0][1], m.rows[1][1], m.rows[2][1], m.rows[3][1]], [m.rows[0][2], m.rows[1][2], m.rows[2][2], m.rows[3][2]], [m.rows[0][3], m.rows[1][3], m.rows[2][3], m.rows[3][3]]])
  }

  function AsRowMajor(m: Mat4f64): Rows4 {
    m.rows
  }

  function AsColMajor(m: Mat4f64): Rows4 {
    Transposed(m).rows
  }

  /** `m[i]`, row `i`; an index of 4 or more panics in the source. */
  function Index(m: Mat4f64, i: nat): Row4
    requires i < 4
  {
    m.rows[i]
  }

  function Add(a: Mat4f64, b: Mat4f64): Mat4f64 {
    Mat4f64([[a.rows[0][0] + b.rows[0][0], a.rows[0][1] + b.rows[0][1], a.rows[0][2] + b.rows[0][2], a.rows[0][3] + b.rows[0][3]], [a.rows[1][0] + b.rows[1][0], a.rows[1][1] + b.rows[1][1], a.rows[1][2] + b.rows[1][2], a.rows[1][3] + b.rows[1][3]], [a.rows[2][0] + b.rows[2][0], a.rows[2][1] + b.rows[2][1], a.rows[2][2] + b.rows[2][2], a.rows[2][3] + b.rows[2][3]], [a.rows[3][0] + b.rows[3][0], a.rows[3][1] + b.rows[3][1], a.rows[3][2] + b.rows[3][2], a.rows[3][3] + b.rows[3][3]]])
  }

  function Sub(a: Mat4f64, b: Mat4f64): Mat4f64 {
    Mat4f64([[a.rows[0][0] - b.rows[0][0], a.rows[0][1] - b.rows[0][1], a.rows[0][2] - b.rows[0][2], a.rows[0][3] - b.rows[0][3]], [a.rows[1][0] - b.rows[1][0], a.rows[1][1] - b.rows[1][1], a.rows[1][2] - b.rows[1][2], a.rows[1][3] - b.rows[1][3]], [a.rows[2][0] - b.rows[2][0], a.rows[2][1] - b.rows[2][1], a.rows[2][2] - b.rows[2][2], a.rows[2][3] - b.rows[2][3]], [a.rows[3][0] - b.rows[3][0], a.rows[3][1] - b.rows[3][1], a.rows[3][2] - b.rows[3][2], a.rows[3][3] - b.rows[3][3]]])
  }

  /** `m * scalar`: every entry multiplied by `scalar`. */
  function Scale(m: Mat4f64, scalar: real): Mat4f64 {
    Mat4f64([[Product(m.rows[0][0], scalar), Product(m.rows[0][1], scalar), Product(m.rows[0][2], scalar), Product(m.rows[0][3], scalar)], [Product(m.rows[1][0], scalar), Product(m.rows[1][1], scalar), Product(m.rows[1][2], scalar), Product(m.rows[1][3], scalar)], [Product(m.rows[2][0], scalar), Product(m.rows[2][1], scalar), Product(m.rows[2][2], scalar), Product(m.rows[2][3], scalar)], [Product(m.rows[3][0], scalar), Product(m.rows[3][1], scalar), Product(m.rows[3][2], scalar), Product(m.rows[3][3], scalar)]])
  }

  /** `scalar * m`, which the source computes as `m * scalar`. */
  function ScaleLeft(scalar: real, m: Mat4f64): Mat4f64 {
    Scale(m, scalar)
  }

  /** `m / scalar`; scaling the quotient back by `scalar` gives `m`. */
  function Div(m: Mat4f64, scalar: real): (r: Mat4f64)
    requires scalar != 0.0
    ensures Scale(r, scalar) == m
  {
    var r := Mat4f64([[m.rows[0][0] / scalar, m.rows[0][1] / scalar, m.rows[0][2] / scalar, m.rows[0][3] / scalar], [m.rows[1][0] / scalar, m.rows[1][1] / scalar, m.rows[1][2] / scalar, m.rows[1][3] / scalar], [m.rows[2][0] / scalar, m.rows[2][1] / scalar, m.rows[2][2] / scalar, m.rows[2][3] / scalar], [m.rows[3][0] / scalar, m.rows[3][1] / scalar, m.rows[3][2] / scalar, m.rows[3][3] / scalar]]);
    QuotientTimesDivisor(m.rows[0][0], scalar);
    QuotientTimesDivisor(m.rows[0][1], scalar);
    QuotientTimesDivisor(m.rows[0][2], scalar);
    QuotientTimesDivisor(m.rows[0][3], scalar);
    QuotientTimesDivisor(m.rows[1][0], scalar);
    QuotientTimesDivisor(m.rows[1][1], scalar);
    QuotientTimesDivisor(m.rows[1][2], scalar);
    QuotientTimesDivisor(m.rows[1][3], scalar);
    QuotientTimesDivisor(m.rows[2][0], scalar);
    QuotientTimesDivisor(m.rows[2][1], scalar);
    QuotientTimesDivisor(m.rows[2][2], scalar);
    QuotientTimesDivisor(m.rows[2][3], scalar);
    QuotientTimesDivisor(m.rows[3][0], scalar);
    QuotientTimesDivisor(m.rows[3][1], scalar);
    QuotientTimesDivisor(m.rows[3][2], scalar);
    QuotientTimesDivisor(m.rows[3][3], scalar);
    assert Scale(r, scalar).rows[0][0] == m.rows[0][0];
    assert Scale(r, scalar).rows[0][1] == m.rows[0][1];
    assert Scale(r, scalar).rows[0][2] == m.rows[0][2];
    assert Scale(r, scalar).rows[0][3] == m.rows[0][3];
    assert Scale(r, scalar).rows[1][0] == m.rows[1][0];
    assert Scale(r, scalar).rows[1][1] == m.rows[1][1];
    assert Scale(r, scalar).rows[1][2] == m.rows[1][2];
    assert Scale(r, scalar).rows[1][3] == m.rows[1][3];
    assert Scale(r, scalar).rows[2][0] == m.rows[2][0];
    assert Scale(r, scalar).rows[2][1] == m.rows[2][1];
    assert Scale(r, scalar).rows[2][2] == m.rows[2][2];
    assert Scale(r, scalar).rows[2][3] == m.rows[2][3];
    assert Scale(r, scalar).rows[3][0] == m.rows[3][0];
    assert Scale(r, scalar).rows[3][1] == m.rows[3][1];
    assert Scale(r, scalar).rows[3][2] == m.rows[3][2];
    assert Scale(r, scalar).rows[3][3] == m.rows[3][3];
    assert Scale(r, scalar).rows[0] == m.rows[0];
    assert Scale(r, scalar).rows[1] == m.rows[1];
    assert Scale(r, scalar).rows[2] == m.rows[2];
    assert Scale(r, scalar).rows[3] == m.rows[3];
    r
  }

  /** The matrix product `a * b`. */
  function Mul(a: Mat4f64, b: Mat4f64): Mat4f64 {
    Mat4f64([[a.rows[0][0] * b.rows[0][0] + a.rows[0][1] * b.rows[1][0] + a.rows[0][2] * b.rows[2][0] + a.rows[0][3] * b.rows[3][0], a.rows[0][0] * b.rows[0][1] + a.rows[0][1] * b.rows[1][1] + a.rows[0][2] * b.rows[2][1] + a.rows[0][3] * b.rows[3][1], a.rows[0][0] * b.rows[0][2] + a.rows[0][1] * b.rows[1][2] + a.rows[0][2] * b.rows[2][2] + a.rows[0][3] * b.rows[3][2], a.rows[0][0] * b.rows[0][3] + a.rows[0][1] * b.rows[1][3] + a.rows[0][2] * b.rows[2][3] + a.rows[0][3] * b.rows[3][3]], [a.rows[1][0] * b.rows[0][0] + a.rows[1][1] * b.rows[1][0] + a.rows[1][2] * b.rows[2][0] + a.rows[1][3] * b.rows[3][0], a.rows[1][0] * b.rows[0][1] + a.rows[1][1] * b.rows[1][1] + a.rows[1][2] * b.rows[2][1] + a.rows[1][3] * b.rows[3][1], a.rows[1][0] * b.rows[0][2] + a.rows[1][1] * b.rows[1][2] + a.rows[1][2] * b.rows[2][2] + a.rows[1][3] * b.rows[3][2], a.rows[1][0] * b.rows[0][3] + a.rows[1][1] * b.rows[1][3] + a.rows[1][2] * b.rows[2][3] + a.rows[1][3] * b.rows[3][3]], [a.rows[2][0] * b.rows[0][0] + a.rows[2][1] * b.rows[1][0] + a.rows[2][2] * b.rows[2][0] + a.rows[2][3] * b.rows[3][0], a.rows[2][0] * b.rows[0][1] + a.rows[2][1] * b.rows[1][1] + a.rows[2][2] * b.rows[2][1] + a.rows[2][3] * b.rows[3][1], a.rows[2][0] * b.rows[0][2] + a.rows[2][1] * b.rows[1][2] + a.rows[2][2] * b.rows[2][2] + a.rows[2][3] * b.rows[3][2], a.rows[2][0] * b.rows[0][3] + a.rows[2][1] * b.rows[1][3] + a.rows[2][2] * b.rows[2][3] + a.rows[2][3] * b.rows[3][3]], [a.rows[3][0] * b.rows[0][0] + a.rows[3][1] * b.rows[1][0] + a.rows[3][2] * b.rows[2][0] + a.rows[3][3] * b.rows[3][0], a.rows[3][0] * b.rows[0][1] + a.rows[3][1] * b.rows[1][1] + a.rows[3][2] * b.rows[2][1] + a.rows[3][3] * b.rows[3][1], a.rows[3][0] * b.rows[0][2] + a.rows[3][1] * b.rows[1][2] + a.rows[3][2] * b.rows[2][2] + a.rows[3][3] * b.rows[3][2], a.rows[3][0] * b.rows[0][3] + a.rows[3][1] * b.rows[1][3] + a.rows[3][2] * b.rows[2][3] + a.rows[3][3] * b.rows[3][3]]])
  }

  /** `m * v`, the matrix applied to a column vector. */
  function MulVec(m: Mat4f64, v: V.Vec4f64): V.Vec4f64 {
    V.Vec4f64([m.rows[0][0] * v.coords[0] + m.rows[0][1] * v.coords[1] + m.rows[0][2] * v.coords[2] + m.rows[0][3] * v.coords[3], m.rows[1][0] * v.coords[0] + m.rows[1][1] * v.coords[1] + m.rows[1][2] * v.coords[2] + m.rows[1][3] * v.coords[3], m.rows[2][0] * v.coords[0] + m.rows[2][1] * v.coords[1] + m.rows[2][2] * v.coords[2] + m.rows[2][3] * v.coords[3], m.rows[3][0] * v.coords[0] + m.rows[3][1] * v.coords[1] + m.rows[3][2] * v.coords[2] + m.rows[3][3] * v.coords[3]])
  }

  /** Row `i` as a vector. */
  function RowVector(m: Mat4f64, i: nat): V.Vec4f64
    requires i < 4
  {
    V.Vec4f64([m.rows[i][0], m.rows[i][1], m.rows[i][2], m.rows[i][3]])
  }

  /** Column `j` as a vector. */
  function ColumnVector(m: Mat4f64, j: nat): V.Vec4f64
    requires j < 4
  {
    V.Vec4f64([m.rows[0][j], m.rows[1][j], m.rows[2][j], m.rows[3][j]])
  }

  /** The unit vector along axis `j`. */
  function UnitVector(j: nat): V.Vec4f64
    requires j < 4
  {
    V.Vec4f64([if j == 0 then 1.0 else 0.0, if j == 1 then 1.0 else 0.0, if j == 2 then 1.0 else 0.0, if j == 3 then 1.0 else 0.0])
  }

  /** Transposing swaps rows and columns. */
  lemma TransposedEntries(m: Mat4f64)
    ensures forall i, j | 0 <= i < 4 && 0 <= j < 4 :: Transposed(m).rows[i][j] == m.rows[j][i]
  {
  }

  /** Transposing twice gives the matrix back. */
  lemma TransposedInvolution(m: Mat4f64)
    ensures Transposed(Transposed(m)) == m
  {
    assert Transposed(Transposed(m)).rows[0] == m.rows[0];
    assert Transposed(Transposed(m)).rows[1] == m.rows[1];
    assert Transposed(Transposed(m)).rows[2] == m.rows[2];
    assert Transposed(Transposed(m)).rows[3] == m.rows[3];
  }

  /** `cols[j]` becomes column `j` of `new_from_cols(cols)`. */
  lemma NewFromColsColumns(cols: Rows4)
    ensures forall i, j | 0 <= i < 4 && 0 <= j < 4 :: NewFromCols(cols).rows[i][j] == cols[j][i]
  {
  }

  /** `as_col_major` and `new_from_cols` undo each other. */
  lemma ColMajorRoundTrip(cols: Rows4, m: Mat4f64)
    ensures AsColMajor(NewFromCols(cols)) == cols
    ensures NewFromCols(AsColMajor(m)) == m
  {
    TransposedInvolution(Mat4f64(cols));
    TransposedInvolution(m);
  }

  /** `as_row_major` returns row `i` at index `i`, `as_col_major` column `j` at index `j`. */
  lemma RowMajorEntries(m: Mat4f64)
    ensures forall i, j | 0 <= i < 4 && 0 <= j < 4 :: AsRowMajor(m)[i][j] == m.rows[i][j] && AsColMajor(m)[i][j] == m.rows[j][i]
  {
    assert AsColMajor(m) == Transposed(m).rows;
    TransposedEntries(m);
  }

  lemma MulEntry00(a: Mat4f64, b: Mat4f64)
    ensures Mul(a, b).rows[0][0] == a.rows[0][0] * b.rows[0][0] + a.rows[0][1] * b.rows[1][0] + a.rows[0][2] * b.rows[2][0] + a.rows[0][3] * b.rows[3][0]
  {
  }

  lemma ProductEntry00(a: Mat4f64, b: Mat4f64)
    ensures Mul(a, b).rows[0][0] == V.Dot(RowVector(a, 0), ColumnVector(b, 0))
  {
    MulEntry00(a, b);
  }

  lemma MulEntry01(a: Mat4f64, b: Mat4f64)
    ensures Mul(a, b).rows[0][1] == a.rows[0][0] * b.rows[0][1] + a.rows[0][1] * b.rows[1][1] + a.rows[0][2] * b.rows[2][1] + a.rows[0][3] * b.rows[3][1]
  {
  }

  lemma ProductEntry01(a: Mat4f64, b: Mat4f64)
    ensures Mul(a, b).rows[0][1] == V.Dot(RowVector(a, 0), ColumnVector(b, 1))
  {
    MulEntry01(a, b);
  }

  lemma MulEntry02(a: Mat4f64, b: Mat4f64)
    ensures Mul(a, b).rows[0][2] == a.rows[0][0] * b.rows[0][2] + a.rows[0][1] * b.rows[1][2] + a.rows[0][2] * b.rows[2][2] + a.rows[0][3] * b.rows[3][2]
  {
  }

  lemma ProductEntry02(a: Mat4f64, b: Mat4f64)
    ensures Mul(a, b).rows[0][2] == V.Dot(RowVector(a, 0), ColumnVector(b, 2))
  {
    MulEntry02(a, b);
  }

  lemma MulEntry03(a: Mat4f64, b: Mat4f64)
    ensures Mul(a, b).rows[0][3] == a.rows[0][0] * b.rows[0][3] + a.rows[0][1] * b.rows[1][3] + a.rows[0][2] * b.rows[2][3] + a.rows[0][3] * b.rows[3][3]
  {
  }

  lemma ProductEntry03(a: Mat4f64, b: Mat4f64)
    ensures Mul(a, b).rows[0][3] == V.Dot(RowVector(a, 0), ColumnVector(b, 3))
  {
    MulEntry03(a, b);
  }

  lemma MulEntry10(a: Mat4f64, b: Mat4f64)
    ensures Mul(a, b).rows[1][0] == a.rows[1][0] * b.rows[0][0] + a.rows[1][1] * b.rows[1][0] + a.rows[1][2] * b.rows[2][0] + a.rows[1][3] * b.rows[3][0]
  {
  }

  lemma ProductEntry10(a: Mat4f64, b: Mat4f64)
    ensures Mul(a, b).rows[1][0] == V.Dot(RowVector(a, 1), ColumnVector(b, 0))
  {
    MulEntry10(a, b);
  }

  lemma MulEntry11(a: Mat4f64, b: Mat4f64)
    ensures Mul(a, b).rows[1][1] == a.rows[1][0] * b.rows[0][1] + a.rows[1][1] * b.rows[1][1] + a.rows[1][2] * b.rows[2][1] + a.rows[1][3] * b.rows[3][1]
  {
  }

  lemma ProductEntry11(a: Mat4f64, b: Mat4f64)
    ensures Mul(a, b).rows[1][1] == V.Dot(RowVector(a, 1), ColumnVector(b, 1))
  {
    MulEntry11(a, b);
  }

  lemma MulEntry12(a: Mat4f64, b: Mat4f64)
    ensures Mul(a, b).rows[1][2] == a.rows[1][0] * b.rows[0][2] + a.rows[1][1] * b.rows[1][2] + a.rows[1][2] * b.rows[2][2] + a.rows[1][3] * b.rows[3][2]
  {
  }

  lemma ProductEntry12(a: Mat4f64, b: Mat4f64)
    ensures Mul(a, b).rows[1][2] == V.Dot(RowVector(a, 1), ColumnVector(b, 2))
  {
    MulEntry12(a, b);
  }

  lemma MulEntry13(a: Mat4f64, b: Mat4f64)
    ensures Mul(a, b).rows[1][3] == a.rows[1][0] * b.rows[0][3] + a.rows[1][1] * b.rows[1][3] + a.rows[1][2] * b.rows[2][3] + a.rows[1][3] * b.rows[3][3]
  {
  }

  lemma ProductEntry13(a: Mat4f64, b: Mat4f64)
    ensures Mul(a, b).rows[1][3] == V.Dot(RowVector(a, 1), ColumnVector(b, 3))
  {
    MulEntry13(a, b);
  }

  lemma MulEntry20(a: Mat4f64, b: Mat4f64)
    ensures Mul(a, b).rows[2][0] == a.rows[2][0] * b.rows[0][0] + a.rows[2][1] * b.rows[1][0] + a.rows[2][2] * b.rows[2][0] + a.rows[2][3] * b.rows[3][0]
  {
  }

  lemma ProductEntry20(a: Mat4f64, b: Mat4f64)
    ensures Mul(a, b).rows[2][0] == V.Dot(RowVector(a, 2), ColumnVector(b, 0))
  {
    MulEntry20(a, b);
  }

  lemma MulEntry21(a: Mat4f64, b: Mat4f64)
    ensures Mul(a, b).rows[2][1] == a.rows[2][0] * b.rows[0][1] + a.rows[2][1] * b.rows[1][1] + a.rows[2][2] * b.rows[2][1] + a.rows[2][3] * b.rows[3][1]
  {
  }

  lemma ProductEntry21(a: Mat4f64, b: Mat4f64)
    ensures Mul(a, b).rows[2][1] == V.Dot(RowVector(a, 2), ColumnVector(b, 1))
  {
    MulEntry21(a, b);
  }

  lemma MulEntry22(a: Mat4f64, b: Mat4f64)
    ensures Mul(a, b).rows[2][2] == a.rows[2][0] * b.rows[0][2] + a.rows[2][1] * b.rows[1][2] + a.rows[2][2] * b.rows[2][2] + a.rows[2][3] * b.rows[3][2]
  {
  }

  lemma ProductEntry22(a: Mat4f64, b: Mat4f64)
    ensures Mul(a, b).rows[2][2] == V.Dot(RowVector(a, 2), ColumnVector(b, 2))
  {
    MulEntry22(a, b);
  }

  lemma MulEntry23(a: Mat4f64, b: Mat4f64)
    ensures Mul(a, b).rows[2][3] == a.rows[2][0] * b.rows[0][3] + a.rows[2][1] * b.rows[1][3] + a.rows[2][2] * b.rows[2][3] + a.rows[2][3] * b.rows[3][3]
  {
  }

  lemma ProductEntry23(a: Mat4f64, b: Mat4f64)
    ensures Mul(a, b).rows[2][3] == V.Dot(RowVector(a, 2), ColumnVector(b, 3))
  {
    MulEntry23(a, b);
  }

  lemma MulEntry30(a: Mat4f64, b: Mat4f64)
    ensures Mul(a, b).rows[3][0] == a.rows[3][0] * b.rows[0][0] + a.rows[3][1] * b.rows[1][0] + a.rows[3][2] * b.rows[2][0] + a.rows[3][3] * b.rows[3][0]
  {
  }

  lemma ProductEntry30(a: Mat4f64, b: Mat4f64)
    ensures Mul(a, b).rows[3][0] == V.Dot(RowVector(a, 3), ColumnVector(b, 0))
  {
    MulEntry30(a, b);
  }

  lemma MulEntry31(a: Mat4f64, b: Mat4f64)
    ensures Mul(a, b).rows[3][1] == a.rows[3][0] * b.rows[0][1] + a.rows[3][1] * b.rows[1][1] + a.rows[3][2] * b.rows[2][1] + a.rows[3][3] * b.rows[3][1]
  {
  }

  lemma ProductEntry31(a: Mat4f64, b: Mat4f64)
    ensures Mul(a, b).rows[3][1] == V.Dot(RowVector(a, 3), ColumnVector(b, 1))
  {
    MulEntry31(a, b);
  }

  lemma MulEntry32(a: Mat4f64, b: Mat4f64)
    ensures Mul(a, b).rows[3][2] == a.rows[3][0] * b.rows[0][2] + a.rows[3][1] * b.rows[1][2] + a.rows[3][2] * b.rows[2][2] + a.rows[3][3] * b.rows[3][2]
  {
  }

  lemma ProductEntry32(a: Mat4f64, b: Mat4f64)
    ensures Mul(a, b).rows[3][2] == V.Dot(RowVector(a, 3), ColumnVector(b, 2))
  {
    MulEntry32(a, b);
  }

  lemma MulEntry33(a: Mat4f64, b: Mat4f64)
    ensures Mul(a, b).rows[3][3] == a.rows[3][0] * b.rows[0][3] + a.rows[3][1] * b.rows[1][3] + a.rows[3][2] * b.rows[2][3] + a.rows[3][3] * b.rows[3][3]
  {
  }

  lemma ProductEntry33(a: Mat4f64, b: Mat4f64)
    ensures Mul(a, b).rows[3][3] == V.Dot(RowVector(a, 3), ColumnVector(b, 3))
  {
    MulEntry33(a, b);
  }

  /** Entry (i, j) of `a * b` is the dot product of row `i` of `a` and column
      `j` of `b`. */
  lemma ProductEntry(a: Mat4f64, b: Mat4f64, i: nat, j: nat)
    requires i < 4 && j < 4
    ensures Mul(a, b).rows[i][j] == V.Dot(RowVector(a, i), ColumnVector(b, j))
  {
    if i == 0 && j == 0 {
      ProductEntry00(a, b);
    } else if i == 0 && j == 1 {
      ProductEntry01(a, b);
    } else if i == 0 && j == 2 {
      ProductEntry02(a, b);
    } else if i == 0 && j == 3 {
      ProductEntry03(a, b);
    } else if i == 1 && j == 0 {
      ProductEntry10(a, b);
    } else if i == 1 && j == 1 {
      ProductEntry11(a, b);
    } else if i == 1 && j == 2 {
      ProductEntry12(a, b);
    } else if i == 1 && j == 3 {
      ProductEntry13(a, b);
    } else if i == 2 && j == 0 {
      ProductEntry20(a, b);
    } else if i == 2 && j == 1 {
      ProductEntry21(a, b);
    } else if i == 2 && j == 2 {
      ProductEntry22(a, b);
    } else if i == 2 && j == 3 {
      ProductEntry23(a, b);
    } else if i == 3 && j == 0 {
      ProductEntry30(a, b);
    } else if i == 3 && j == 1 {
      ProductEntry31(a, b);
    } else if i == 3 && j == 2 {
      ProductEntry32(a, b);
    } else {
      ProductEntry33(a, b);
    }
  }

  lemma MulVecComponent0(m: Mat4f64, v: V.Vec4f64)
    ensures MulVec(m, v).coords[0] == m.rows[0][0] * v.coords[0] + m.rows[0][1] * v.coords[1] + m.rows[0][2] * v.coords[2] + m.rows[0][3] * v.coords[3]
  {
  }

  lemma DotRow0(m: Mat4f64, v: V.Vec4f64)
    ensures V.Dot(RowVector(m, 0), v) == m.rows[0][0] * v.coords[0] + m.rows[0][1] * v.coords[1] + m.rows[0][2] * v.coords[2] + m.rows[0][3] * v.coords[3]
  {
  }

  lemma MulVecComponent1(m: Mat4f64, v: V.Vec4f64)
    ensures MulVec(m, v).coords[1] == m.rows[1][0] * v.coords[0] + m.rows[1][1] * v.coords[1] + m.rows[1][2] * v.coords[2] + m.rows[1][3] * v.coords[3]
  {
  }

  lemma DotRow1(m: Mat4f64, v: V.Vec4f64)
    ensures V.Dot(RowVector(m, 1), v) == m.rows[1][0] * v.coords[0] + m.rows[1][1] * v.coords[1] + m.rows[1][2] * v.coords[2] + m.rows[1][3] * v.coords[3]
  {
  }

  lemma MulVecComponent2(m: Mat4f64, v: V.Vec4f64)
    ensures MulVec(m, v).coords[2] == m.rows[2][0] * v.coords[0] + m.rows[2][1] * v.coords[1] + m.rows[2][2] * v.coords[2] + m.rows[2][3] * v.coords[3]
  {
  }

  lemma DotRow2(m: Mat4f64, v: V.Vec4f64)
    ensures V.Dot(RowVector(m, 2), v) == m.rows[2][0] * v.coords[0] + m.rows[2][1] * v.coords[1] + m.rows[2][2] * v.coords[2] + m.rows[2][3] * v.coords[3]
  {
  }

  lemma MulVecComponent3(m: Mat4f64, v: V.Vec4f64)
    ensures MulVec(m, v).coords[3] == m.rows[3][0] * v.coords[0] + m.rows[3][1] * v.coords[1] + m.rows[3][2] * v.coords[2] + m.rows[3][3] * v.coords[3]
  {
  }

  lemma DotRow3(m: Mat4f64, v: V.Vec4f64)
    ensures V.Dot(RowVector(m, 3), v) == m.rows[3][0] * v.coords[0] + m.rows[3][1] * v.coords[1] + m.rows[3][2] * v.coords[2] + m.rows[3][3] * v.coords[3]
  {
  }

  /** Component `i` of `m * v` is the dot product of row `i` with `v`. */
  lemma MulVecRows(m: Mat4f64, v: V.Vec4f64)
    ensures MulVec(m, v) == V.Vec4f64([V.Dot(RowVector(m, 0), v), V.Dot(RowVector(m, 1), v), V.Dot(RowVector(m, 2), v), V.Dot(RowVector(m, 3), v)])
  {
    MulVecComponent0(m, v);
    MulVecComponent1(m, v);
    MulVecComponent2(m, v);
    MulVecComponent3(m, v);
    DotRow0(m, v);
    DotRow1(m, v);
    DotRow2(m, v);
    DotRow3(m, v);
    assert MulVec(m, v).coords == V.Vec4f64([V.Dot(RowVector(m, 0), v), V.Dot(RowVector(m, 1), v), V.Dot(RowVector(m, 2), v), V.Dot(RowVector(m, 3), v)]).coords;
  }

  /** `m` applied to the unit vector along axis `j` is column `j` of `m`. */
  lemma MulVecUnit(m: Mat4f64, j: nat)
    requires j < 4
    ensures MulVec(m, UnitVector(j)) == ColumnVector(m, j)
  {
    if j == 0 {
      assert UnitVector(j) == V.Vec4f64([1.0, 0.0, 0.0, 0.0]);
      MulVecComponent0(m, V.Vec4f64([1.0, 0.0, 0.0, 0.0]));
      MulVecComponent1(m, V.Vec4f64([1.0, 0.0, 0.0, 0.0]));
      MulVecComponent2(m, V.Vec4f64([1.0, 0.0, 0.0, 0.0]));
      MulVecComponent3(m, V.Vec4f64([1.0, 0.0, 0.0, 0.0]));
      assert MulVec(m, V.Vec4f64([1.0, 0.0, 0.0, 0.0])).coords[0] == m.rows[0][0];
      assert MulVec(m, V.Vec4f64([1.0, 0.0, 0.0, 0.0])).coords[1] == m.rows[1][0];
      assert MulVec(m, V.Vec4f64([1.0, 0.0, 0.0, 0.0])).coords[2] == m.rows[2][0];
      assert MulVec(m, V.Vec4f64([1.0, 0.0, 0.0, 0.0])).coords[3] == m.rows[3][0];
      assert MulVec(m, V.Vec4f64([1.0, 0.0, 0.0, 0.0])).coords == ColumnVector(m, 0).coords;
    } else if j == 1 {
      assert UnitVector(j) == V.Vec4f64([0.0, 1.0, 0.0, 0.0]);
      MulVecComponent0(m, V.Vec4f64([0.0, 1.0, 0.0, 0.0]));
      MulVecComponent1(m, V.Vec4f64([0.0, 1.0, 0.0, 0.0]));
      MulVecComponent2(m, V.Vec4f64([0.0, 1.0, 0.0, 0.0]));
      MulVecComponent3(m, V.Vec4f64([0.0, 1.0, 0.0, 0.0]));
      assert MulVec(m, V.Vec4f64([0.0, 1.0, 0.0, 0.0])).coords[0] == m.rows[0][1];
      assert MulVec(m, V.Vec4f64([0.0, 1.0, 0.0, 0.0])).coords[1] == m.rows[1][1];
      assert MulVec(m, V.Vec4f64([0.0, 1.0, 0.0, 0.0])).coords[2] == m.rows[2][1];
      assert MulVec(m, V.Vec4f64([0.0, 1.0, 0.0, 0.0])).coords[3] == m.rows[3][1];
      assert MulVec(m, V.Vec4f64([0.0, 1.0, 0.0, 0.0])).coords == ColumnVector(m, 1).coords;
    } else if j == 2 {
      assert UnitVector(j) == V.Vec4f64([0.0, 0.0, 1.0, 0.0]);
      MulVecComponent0(m, V.Vec4f64([0.0, 0.0, 1.0, 0.0]));
      MulVecComponent1(m, V.Vec4f64([0.0, 0.0, 1.0, 0.0]));
      MulVecComponent2(m, V.Vec4f64([0.0, 0.0, 1.0, 0.0]));
      MulVecComponent3(m, V.Vec4f64([0.0, 0.0, 1.0, 0.0]));
      assert MulVec(m, V.Vec4f64([0.0, 0.0, 1.0, 0.0])).coords[0] == m.rows[0][2];
      assert MulVec(m, V.Vec4f64([0.0, 0.0, 1.0, 0.0])).coords[1] == m.rows[1][2];
      assert MulVec(m, V.Vec4f64([0.0, 0.0, 1.0, 0.0])).coords[2] == m.rows[2][2];
      assert MulVec(m, V.Vec4f64([0.0, 0.0, 1.0, 0.0])).coords[3] == m.rows[3][2];
      assert MulVec(m, V.Vec4f64([0.0, 0.0, 1.0, 0.0])).coords == ColumnVector(m, 2).coords;
    } else {
      assert UnitVector(j) == V.Vec4f64([0.0, 0.0, 0.0, 1.0]);
      MulVecComponent0(m, V.Vec4f64([0.0, 0.0, 0.0, 1.0]));
      MulVecComponent1(m, V.Vec4f64([0.0, 0.0, 0.0, 1.0]));
      MulVecComponent2(m, V.Vec4f64([0.0, 0.0, 0.0, 1.0]));
      MulVecComponent3(m, V.Vec4f64([0.0, 0.0, 0.0, 1.0]));
      assert MulVec(m, V.Vec4f64([0.0, 0.0, 0.0, 1.0])).coords[0] == m.rows[0][3];
      assert MulVec(m, V.Vec4f64([0.0, 0.0, 0.0, 1.0])).coords[1] == m.rows[1][3];
      assert MulVec(m, V.Vec4f64([0.0, 0.0, 0.0, 1.0])).coords[2] == m.rows[2][3];
      assert MulVec(m, V.Vec4f64([0.0, 0.0, 0.0, 1.0])).coords[3] == m.rows[3][3];
      assert MulVec(m, V.Vec4f64([0.0, 0.0, 0.0, 1.0])).coords == ColumnVector(m, 3).coords;
    }
  }

  /** Two matrices with the same columns are equal. */
  lemma ColumnsDetermine(m: Mat4f64, k: Mat4f64)
    requires forall j | 0 <= j < 4 :: ColumnVector(m, j) == ColumnVector(k, j)
    ensures m == k
  {
    assert ColumnVector(m, 0) == ColumnVector(k, 0);
    assert ColumnVector(m, 1) == ColumnVector(k, 1);
    assert ColumnVector(m, 2) == ColumnVector(k, 2);
    assert ColumnVector(m, 3) == ColumnVector(k, 3);
    assert m.rows[0][0] == ColumnVector(m, 0).coords[0];
    assert m.rows[0][1] == ColumnVector(m, 1).coords[0];
    assert m.rows[0][2] == ColumnVector(m, 2).coords[0];
    assert m.rows[0][3] == ColumnVector(m, 3).coords[0];
    assert m.rows[1][0] == ColumnVector(m, 0).coords[1];
    assert m.rows[1][1] == ColumnVector(m, 1).coords[1];
    assert m.rows[1][2] == ColumnVector(m, 2).coords[1];
    assert m.rows[1][3] == ColumnVector(m, 3).coords[1];
    assert m.rows[2][0] == ColumnVector(m, 0).coords[2];
    assert m.rows[2][1] == ColumnVector(m, 1).coords[2];
    assert m.rows[2][2] == ColumnVector(m, 2).coords[2];
    assert m.rows[2][3] == ColumnVector(m, 3).coords[2];
    assert m.rows[3][0] == ColumnVector(m, 0).coords[3];
    assert m.rows[3][1] == ColumnVector(m, 1).coords[3];
    assert m.rows[3][2] == ColumnVector(m, 2).coords[3];
    assert m.rows[3][3] == ColumnVector(m, 3).coords[3];
    assert m.rows[0] == k.rows[0];
    assert m.rows[1] == k.rows[1];
    assert m.rows[2] == k.rows[2];
    assert m.rows[3] == k.rows[3];
  }

  lemma ProductAppliedLeft0(a: Mat4f64, b: Mat4f64, v: V.Vec4f64)
    ensures MulVec(Mul(a, b), v).coords[0] == (a.rows[0][0] * b.rows[0][0] + a.rows[0][1] * b.rows[1][0] + a.rows[0][2] * b.rows[2][0] + a.rows[0][3] * b.rows[3][0]) * v.coords[0] + (a.rows[0][0] * b.rows[0][1] + a.rows[0][1] * b.rows[1][1] + a.rows[0][2] * b.rows[2][1] + a.rows[0][3] * b.rows[3][1]) * v.coords[1] + (a.rows[0][0] * b.rows[0][2] + a.rows[0][1] * b.rows[1][2] + a.rows[0][2] * b.rows[2][2] + a.rows[0][3] * b.rows[3][2]) * v.coords[2] + (a.rows[0][0] * b.rows[0][3] + a.rows[0][1] * b.rows[1][3] + a.rows[0][2] * b.rows[2][3] + a.rows[0][3] * b.rows[3][3]) * v.coords[3]
  {
    MulVecComponent0(Mul(a, b), v);
    MulEntry00(a, b);
    MulEntry01(a, b);
    MulEntry02(a, b);
    MulEntry03(a, b);
  }

  lemma ProductAppliedRight0(a: Mat4f64, b: Mat4f64, v: V.Vec4f64)
    ensures MulVec(a, MulVec(b, v)).coords[0] == a.rows[0][0] * (b.rows[0][0] * v.coords[0] + b.rows[0][1] * v.coords[1] + b.rows[0][2] * v.coords[2] + b.rows[0][3] * v.coords[3]) + a.rows[0][1] * (b.rows[1][0] * v.coords[0] + b.rows[1][1] * v.coords[1] + b.rows[1][2] * v.coords[2] + b.rows[1][3] * v.coords[3]) + a.rows[0][2] * (b.rows[2][0] * v.coords[0] + b.rows[2][1] * v.coords[1] + b.rows[2][2] * v.coords[2] + b.rows[2][3] * v.coords[3]) + a.rows[0][3] * (b.rows[3][0] * v.coords[0] + b.rows[3][1] * v.coords[1] + b.rows[3][2] * v.coords[2] + b.rows[3][3] * v.coords[3])
  {
    MulVecComponent0(a, MulVec(b, v));
    MulVecComponent0(b, v);
    MulVecComponent1(b, v);
    MulVecComponent2(b, v);
    MulVecComponent3(b, v);
  }

  lemma ProductApplied0(a: Mat4f64, b: Mat4f64, v: V.Vec4f64)
    ensures MulVec(Mul(a, b), v).coords[0] == MulVec(a, MulVec(b, v)).coords[0]
  {
    ProductAppliedLeft0(a, b, v);
    ProductAppliedRight0(a, b, v);
    Id.ProductApplied(a.rows[0][0], a.rows[0][1], a.rows[0][2], a.rows[0][3], b.rows[0][0], b.rows[0][1], b.rows[0][2], b.rows[0][3], b.rows[1][0], b.rows[1][1], b.rows[1][2], b.rows[1][3], b.rows[2][0], b.rows[2][1], b.rows[2][2], b.rows[2][3], b.rows[3][0], b.rows[3][1], b.rows[3][2], b.rows[3][3], v.coords[0], v.coords[1], v.coords[2], v.coords[3]);
  }

  lemma ProductAppliedLeft1(a: Mat4f64, b: Mat4f64, v: V.Vec4f64)
    ensures MulVec(Mul(a, b), v).coords[1] == (a.rows[1][0] * b.rows[0][0] + a.rows[1][1] * b.rows[1][0] + a.rows[1][2] * b.rows[2][0] + a.rows[1][3] * b.rows[3][0]) * v.coords[0] + (a.rows[1][0] * b.rows[0][1] + a.rows[1][1] * b.rows[1][1] + a.rows[1][2] * b.rows[2][1] + a.rows[1][3] * b.rows[3][1]) * v.coords[1] + (a.rows[1][0] * b.rows[0][2] + a.rows[1][1] * b.rows[1][2] + a.rows[1][2] * b.rows[2][2] + a.rows[1][3] * b.rows[3][2]) * v.coords[2] + (a.rows[1][0] * b.rows[0][3] + a.rows[1][1] * b.rows[1][3] + a.rows[1][2] * b.rows[2][3] + a.rows[1][3] * b.rows[3][3]) * v.coords[3]
  {
    MulVecComponent1(Mul(a, b), v);
    MulEntry10(a, b);
    MulEntry11(a, b);
    MulEntry12(a, b);
    MulEntry13(a, b);
  }

  lemma ProductAppliedRight1(a: Mat4f64, b: Mat4f64, v: V.Vec4f64)
    ensures MulVec(a, MulVec(b, v)).coords[1] == a.rows[1][0] * (b.rows[0][0] * v.coords[0] + b.rows[0][1] * v.coords[1] + b.rows[0][2] * v.coords[2] + b.rows[0][3] * v.coords[3]) + a.rows[1][1] * (b.rows[1][0] * v.coords[0] + b.rows[1][1] * v.coords[1] + b.rows[1][2] * v.coords[2] + b.rows[1][3] * v.coords[3]) + a.rows[1][2] * (b.rows[2][0] * v.coords[0] + b.rows[2][1] * v.coords[1] + b.rows[2][2] * v.coords[2] + b.rows[2][3] * v.coords[3]) + a.rows[1][3] * (b.rows[3][0] * v.coords[0] + b.rows[3][1] * v.coords[1] + b.rows[3][2] * v.coords[2] + b.rows[3][3] * v.coords[3])
  {
    MulVecComponent1(a, MulVec(b, v));
    MulVecComponent0(b, v);
    MulVecComponent1(b, v);
    MulVecComponent2(b, v);
    MulVecComponent3(b, v);
  }

  lemma ProductApplied1(a: Mat4f64, b: Mat4f64, v: V.Vec4f64)
    ensures MulVec(Mul(a, b), v).coords[1] == MulVec(a, MulVec(b, v)).coords[1]
  {
    ProductAppliedLeft1(a, b, v);
    ProductAppliedRight1(a, b, v);
    Id.ProductApplied(a.rows[1][0], a.rows[1][1], a.rows[1][2], a.rows[1][3], b.rows[0][0], b.rows[0][1], b.rows[0][2], b.rows[0][3], b.rows[1][0], b.rows[1][1], b.rows[1][2], b.rows[1][3], b.rows[2][0], b.rows[2][1], b.rows[2][2], b.rows[2][3], b.rows[3][0], b.rows[3][1], b.rows[3][2], b.rows[3][3], v.coords[0], v.coords[1], v.coords[2], v.coords[3]);
  }

  lemma ProductAppliedLeft2(a: Mat4f64, b: Mat4f64, v: V.Vec4f64)
    ensures MulVec(Mul(a, b), v).coords[2] == (a.rows[2][0] * b.rows[0][0] + a.rows[2][1] * b.rows[1][0] + a.rows[2][2] * b.rows[2][0] + a.rows[2][3] * b.rows[3][0]) * v.coords[0] + (a.rows[2][0] * b.rows[0][1] + a.rows[2][1] * b.rows[1][1] + a.rows[2][2] * b.rows[2][1] + a.rows[2][3] * b.rows[3][1]) * v.coords[1] + (a.rows[2][0] * b.rows[0][2] + a.rows[2][1] * b.rows[1][2] + a.rows[2][2] * b.rows[2][2] + a.rows[2][3] * b.rows[3][2]) * v.coords[2] + (a.rows[2][0] * b.rows[0][3] + a.rows[2][1] * b.rows[1][3] + a.rows[2][2] * b.rows[2][3] + a.rows[2][3] * b.rows[3][3]) * v.coords[3]
  {
    MulVecComponent2(Mul(a, b), v);
    MulEntry20(a, b);
    MulEntry21(a, b);
    MulEntry22(a, b);
    MulEntry23(a, b);
  }

  lemma ProductAppliedRight2(a: Mat4f64, b: Mat4f64, v: V.Vec4f64)
    ensures MulVec(a, MulVec(b, v)).coords[2] == a.rows[2][0] * (b.rows[0][0] * v.coords[0] + b.rows[0][1] * v.coords[1] + b.rows[0][2] * v.coords[2] + b.rows[0][3] * v.coords[3]) + a.rows[2][1] * (b.rows[1][0] * v.coords[0] + b.rows[1][1] * v.coords[1] + b.rows[1][2] * v.coords[2] + b.rows[1][3] * v.coords[3]) + a.rows[2][2] * (b.rows[2][0] * v.coords[0] + b.rows[2][1] * v.coords[1] + b.rows[2][2] * v.coords[2] + b.rows[2][3] * v.coords[3]) + a.rows[2][3] * (b.rows[3][0] * v.coords[0] + b.rows[3][1] * v.coords[1] + b.rows[3][2] * v.coords[2] + b.rows[3][3] * v.coords[3])
  {
    MulVecComponent2(a, MulVec(b, v));
    MulVecComponent0(b, v);
    MulVecComponent1(b, v);
    MulVecComponent2(b, v);
    MulVecComponent3(b, v);
  }

  lemma ProductApplied2(a: Mat4f64, b: Mat4f64, v: V.Vec4f64)
    ensures MulVec(Mul(a, b), v).coords[2] == MulVec(a, MulVec(b, v)).coords[2]
  {
    ProductAppliedLeft2(a, b, v);
    ProductAppliedRight2(a, b, v);
    Id.ProductApplied(a.rows[2][0], a.rows[2][1], a.rows[2][2], a.rows[2][3], b.rows[0][0], b.rows[0][1], b.rows[0][2], b.rows[0][3], b.rows[1][0], b.rows[1][1], b.rows[1][2], b.rows[1][3], b.rows[2][0], b.rows[2][1], b.rows[2][2], b.rows[2][3], b.rows[3][0], b.rows[3][1], b.rows[3][2], b.rows[3][3], v.coords[0], v.coords[1], v.coords[2], v.coords[3]);
  }

  lemma ProductAppliedLeft3(a: Mat4f64, b: Mat4f64, v: V.Vec4f64)
    ensures MulVec(Mul(a, b), v).coords[3] == (a.rows[3][0] * b.rows[0][0] + a.rows[3][1] * b.rows[1][0] + a.rows[3][2] * b.rows[2][0] + a.rows[3][3] * b.rows[3][0]) * v.coords[0] + (a.rows[3][0] * b.rows[0][1] + a.rows[3][1] * b.rows[1][1] + a.rows[3][2] * b.rows[2][1] + a.rows[3][3] * b.rows[3][1]) * v.coords[1] + (a.rows[3][0] * b.rows[0][2] + a.rows[3][1] * b.rows[1][2] + a.rows[3][2] * b.rows[2][2] + a.rows[3][3] * b.rows[3][2]) * v.coords[2] + (a.rows[3][0] * b.rows[0][3] + a.rows[3][1] * b.rows[1][3] + a.rows[3][2] * b.rows[2][3] + a.rows[3][3] * b.rows[3][3]) * v.coords[3]
  {
    MulVecComponent3(Mul(a, b), v);
    MulEntry30(a, b);
    MulEntry31(a, b);
    MulEntry32(a, b);
    MulEntry33(a, b);
  }

  lemma ProductAppliedRight3(a: Mat4f64, b: Mat4f64, v: V.Vec4f64)
    ensures MulVec(a, MulVec(b, v)).coords[3] == a.rows[3][0] * (b.rows[0][0] * v.coords[0] + b.rows[0][1] * v.coords[1] + b.rows[0][2] * v.coords[2] + b.rows[0][3] * v.coords[3]) + a.rows[3][1] * (b.rows[1][0] * v.coords[0] + b.rows[1][1] * v.coords[1] + b.rows[1][2] * v.coords[2] + b.rows[1][3] * v.coords[3]) + a.rows[3][2] * (b.rows[2][0] * v.coords[0] + b.rows[2][1] * v.coords[1] + b.rows[2][2] * v.coords[2] + b.rows[2][3] * v.coords[3]) + a.rows[3][3] * (b.rows[3][0] * v.coords[0] + b.rows[3][1] * v.coords[1] + b.rows[3][2] * v.coords[2] + b.rows[3][3] * v.coords[3])
  {
    MulVecComponent3(a, MulVec(b, v));
    MulVecComponent0(b, v);
    MulVecComponent1(b, v);
    MulVecComponent2(b, v);
    MulVecComponent3(b, v);
  }

  lemma ProductApplied3(a: Mat4f64, b: Mat4f64, v: V.Vec4f64)
    ensures MulVec(Mul(a, b), v).coords[3] == MulVec(a, MulVec(b, v)).coords[3]
  {
    ProductAppliedLeft3(a, b, v);
    ProductAppliedRight3(a, b, v);
    Id.ProductApplied(a.rows[3][0], a.rows[3][1], a.rows[3][2], a.rows[3][3], b.rows[0][0], b.rows[0][1], b.rows[0][2], b.rows[0][3], b.rows[1][0], b.rows[1][1], b.rows[1][2], b.rows[1][3], b.rows[2][0], b.rows[2][1], b.rows[2][2], b.rows[2][3], b.rows[3][0], b.rows[3][1], b.rows[3][2], b.rows[3][3], v.coords[0], v.coords[1], v.coords[2], v.coords[3]);
  }

  /** Applying `a * b` to a vector applies `b`, then `a`. */
  lemma MulVecOfProduct(a: Mat4f64, b: Mat4f64, v: V.Vec4f64)
    ensures MulVec(Mul(a, b), v) == MulVec(a, MulVec(b, v))
  {
    ProductApplied0(a, b, v);
    ProductApplied1(a, b, v);
    ProductApplied2(a, b, v);
    ProductApplied3(a, b, v);
    assert MulVec(Mul(a, b), v).coords == MulVec(a, MulVec(b, v)).coords;
  }

  lemma TransposedProductEntry00(a: Mat4f64, b: Mat4f64)
    ensures Transposed(Mul(a, b)).rows[0][0] == Mul(Transposed(b), Transposed(a)).rows[0][0]
  {
  }

  lemma TransposedProductEntry01(a: Mat4f64, b: Mat4f64)
    ensures Transposed(Mul(a, b)).rows[0][1] == Mul(Transposed(b), Transposed(a)).rows[0][1]
  {
  }

  lemma TransposedProductEntry02(a: Mat4f64, b: Mat4f64)
    ensures Transposed(Mul(a, b)).rows[0][2] == Mul(Transposed(b), Transposed(a)).rows[0][2]
  {
  }

  lemma TransposedProductEntry03(a: Mat4f64, b: Mat4f64)
    ensures Transposed(Mul(a, b)).rows[0][3] == Mul(Transposed(b), Transposed(a)).rows[0][3]
  {
  }

  lemma TransposedProductEntry10(a: Mat4f64, b: Mat4f64)
    ensures Transposed(Mul(a, b)).rows[1][0] == Mul(Transposed(b), Transposed(a)).rows[1][0]
  {
  }

  lemma TransposedProductEntry11(a: Mat4f64, b: Mat4f64)
    ensures Transposed(Mul(a, b)).rows[1][1] == Mul(Transposed(b), Transposed(a)).rows[1][1]
  {
  }

  lemma TransposedProductEntry12(a: Mat4f64, b: Mat4f64)
    ensures Transposed(Mul(a, b)).rows[1][2] == Mul(Transposed(b), Transposed(a)).rows[1][2]
  {
  }

  lemma TransposedProductEntry13(a: Mat4f64, b: Mat4f64)
    ensures Transposed(Mul(a, b)).rows[1][3] == Mul(Transposed(b), Transposed(a)).rows[1][3]
  {
  }

  lemma TransposedProductEntry20(a: Mat4f64, b: Mat4f64)
    ensures Transposed(Mul(a, b)).rows[2][0] == Mul(Transposed(b), Transposed(a)).rows[2][0]
  {
  }

  lemma TransposedProductEntry21(a: Mat4f64, b: Mat4f64)
    ensures Transposed(Mul(a, b)).rows[2][1] == Mul(Transposed(b), Transposed(a)).rows[2][1]
  {
  }

  lemma TransposedProductEntry22(a: Mat4f64, b: Mat4f64)
    ensures Transposed(Mul(a, b)).rows[2][2] == Mul(Transposed(b), Transposed(a)).rows[2][2]
  {
  }

  lemma TransposedProductEntry23(a: Mat4f64, b: Mat4f64)
    ensures Transposed(Mul(a, b)).rows[2][3] == Mul(Transposed(b), Transposed(a)).rows[2][3]
  {
  }

  lemma TransposedProductEntry30(a: Mat4f64, b: Mat4f64)
    ensures Transposed(Mul(a, b)).rows[3][0] == Mul(Transposed(b), Transposed(a)).rows[3][0]
  {
  }

  lemma TransposedProductEntry31(a: Mat4f64, b: Mat4f64)
    ensures Transposed(Mul(a, b)).rows[3][1] == Mul(Transposed(b), Transposed(a)).rows[3][1]
  {
  }

  lemma TransposedProductEntry32(a: Mat4f64, b: Mat4f64)
    ensures Transposed(Mul(a, b)).rows[3][2] == Mul(Transposed(b), Transposed(a)).rows[3][2]
  {
  }

  lemma TransposedProductEntry33(a: Mat4f64, b: Mat4f64)
    ensures Transposed(Mul(a, b)).rows[3][3] == Mul(Transposed(b), Transposed(a)).rows[3][3]
  {
  }

  /** The transpose of a product is the product of the transposes, in reverse order. */
  lemma TransposedOfProduct(a: Mat4f64, b: Mat4f64)
    ensures Transposed(Mul(a, b)) == Mul(Transposed(b), Transposed(a))
  {
    TransposedProductEntry00(a, b);
    TransposedProductEntry01(a, b);
    TransposedProductEntry02(a, b);
    TransposedProductEntry03(a, b);
    TransposedProductEntry10(a, b);
    TransposedProductEntry11(a, b);
    TransposedProductEntry12(a, b);
    TransposedProductEntry13(a, b);
    TransposedProductEntry20(a, b);
    TransposedProductEntry21(a, b);
    TransposedProductEntry22(a, b);
    TransposedProductEntry23(a, b);
    TransposedProductEntry30(a, b);
    TransposedProductEntry31(a, b);
    TransposedProductEntry32(a, b);
    TransposedProductEntry33(a, b);
    assert Transposed(Mul(a, b)).rows[0] == Mul(Transposed(b), Transposed(a)).rows[0];
    assert Transposed(Mul(a, b)).rows[1] == Mul(Transposed(b), Transposed(a)).rows[1];
    assert Transposed(Mul(a, b)).rows[2] == Mul(Transposed(b), Transposed(a)).rows[2];
    assert Transposed(Mul(a, b)).rows[3] == Mul(Transposed(b), Transposed(a)).rows[3];
  }

  /** Subtracting what was added gives the matrix back. */
  lemma AddSubInverse(m: Mat4f64, k: Mat4f64)
    ensures Sub(Add(m, k), k) == m
  {
    assert Sub(Add(m, k), k).rows[0] == m.rows[0];
    assert Sub(Add(m, k), k).rows[1] == m.rows[1];
    assert Sub(Add(m, k), k).rows[2] == m.rows[2];
    assert Sub(Add(m, k), k).rows[3] == m.rows[3];
  }

  lemma AddCommutes(m: Mat4f64, k: Mat4f64)
    ensures Add(m, k) == Add(k, m)
  {
  }

  /** Scaling distributes over `+`. */
  lemma ScaleDistributes(m: Mat4f64, k: Mat4f64, scalar: real)
    ensures Scale(Add(m, k), scalar) == Add(Scale(m, scalar), Scale(k, scalar))
  {
    ProductDistributes(m.rows[0][0], k.rows[0][0], Add(m, k).rows[0][0], scalar);
    ProductDistributes(m.rows[0][1], k.rows[0][1], Add(m, k).rows[0][1], scalar);
    ProductDistributes(m.rows[0][2], k.rows[0][2], Add(m, k).rows[0][2], scalar);
    ProductDistributes(m.rows[0][3], k.rows[0][3], Add(m, k).rows[0][3], scalar);
    ProductDistributes(m.rows[1][0], k.rows[1][0], Add(m, k).rows[1][0], scalar);
    ProductDistributes(m.rows[1][1], k.rows[1][1], Add(m, k).rows[1][1], scalar);
    ProductDistributes(m.rows[1][2], k.rows[1][2], Add(m, k).rows[1][2], scalar);
    ProductDistributes(m.rows[1][3], k.rows[1][3], Add(m, k).rows[1][3], scalar);
    ProductDistributes(m.rows[2][0], k.rows[2][0], Add(m, k).rows[2][0], scalar);
    ProductDistributes(m.rows[2][1], k.rows[2][1], Add(m, k).rows[2][1], scalar);
    ProductDistributes(m.rows[2][2], k.rows[2][2], Add(m, k).rows[2][2], scalar);
    ProductDistributes(m.rows[2][3], k.rows[2][3], Add(m, k).rows[2][3], scalar);
    ProductDistributes(m.rows[3][0], k.rows[3][0], Add(m, k).rows[3][0], scalar);
    ProductDistributes(m.rows[3][1], k.rows[3][1], Add(m, k).rows[3][1], scalar);
    ProductDistributes(m.rows[3][2], k.rows[3][2], Add(m, k).rows[3][2], scalar);
    ProductDistributes(m.rows[3][3], k.rows[3][3], Add(m, k).rows[3][3], scalar);
    assert Scale(Add(m, k), scalar).rows[0][0] == Add(Scale(m, scalar), Scale(k, scalar)).rows[0][0];
    assert Scale(Add(m, k), scalar).rows[0][1] == Add(Scale(m, scalar), Scale(k, scalar)).rows[0][1];
    assert Scale(Add(m, k), scalar).rows[0][2] == Add(Scale(m, scalar), Scale(k, scalar)).rows[0][2];
    assert Scale(Add(m, k), scalar).rows[0][3] == Add(Scale(m, scalar), Scale(k, scalar)).rows[0][3];
    assert Scale(Add(m, k), scalar).rows[1][0] == Add(Scale(m, scalar), Scale(k, scalar)).rows[1][0];
    assert Scale(Add(m, k), scalar).rows[1][1] == Add(Scale(m, scalar), Scale(k, scalar)).rows[1][1];
    assert Scale(Add(m, k), scalar).rows[1][2] == Add(Scale(m, scalar), Scale(k, scalar)).rows[1][2];
    assert Scale(Add(m, k), scalar).rows[1][3] == Add(Scale(m, scalar), Scale(k, scalar)).rows[1][3];
    assert Scale(Add(m, k), scalar).rows[2][0] == Add(Scale(m, scalar), Scale(k, scalar)).rows[2][0];
    assert Scale(Add(m, k), scalar).rows[2][1] == Add(Scale(m, scalar), Scale(k, scalar)).rows[2][1];
    assert Scale(Add(m, k), scalar).rows[2][2] == Add(Scale(m, scalar), Scale(k, scalar)).rows[2][2];
    assert Scale(Add(m, k), scalar).rows[2][3] == Add(Scale(m, scalar), Scale(k, scalar)).rows[2][3];
    assert Scale(Add(m, k), scalar).rows[3][0] == Add(Scale(m, scalar), Scale(k, scalar)).rows[3][0];
    assert Scale(Add(m, k), scalar).rows[3][1] == Add(Scale(m, scalar), Scale(k, scalar)).rows[3][1];
    assert Scale(Add(m, k), scalar).rows[3][2] == Add(Scale(m, scalar), Scale(k, scalar)).rows[3][2];
    assert Scale(Add(m, k), scalar).rows[3][3] == Add(Scale(m, scalar), Scale(k, scalar)).rows[3][3];
    assert Scale(Add(m, k), scalar).rows[0] == Add(Scale(m, scalar), Scale(k, scalar)).rows[0];
    assert Scale(Add(m, k), scalar).rows[1] == Add(Scale(m, scalar), Scale(k, scalar)).rows[1];
    assert Scale(Add(m, k), scalar).rows[2] == Add(Scale(m, scalar), Scale(k, scalar)).rows[2];
    assert Scale(Add(m, k), scalar).rows[3] == Add(Scale(m, scalar), Scale(k, scalar)).rows[3];
  }

  /** Column `j` of `(a * b) * c` is column `j` of `a * (b * c)`. */
  lemma AssociativeColumn(a: Mat4f64, b: Mat4f64, c: Mat4f64, j: nat)
    requires j < 4
    ensures ColumnVector(Mul(Mul(a, b), c), j) == ColumnVector(Mul(a, Mul(b, c)), j)
  {
    var u := UnitVector(j);
    calc {
      ColumnVector(Mul(Mul(a, b), c), j);
    == { MulVecUnit(Mul(Mul(a, b), c), j); }
      MulVec(Mul(Mul(a, b), c), u);
    == { MulVecOfProduct(Mul(a, b), c, u); }
      MulVec(Mul(a, b), MulVec(c, u));
    == { MulVecOfProduct(a, b, MulVec(c, u)); }
      MulVec(a, MulVec(b, MulVec(c, u)));
    == { MulVecOfProduct(b, c, u); }
      MulVec(a, MulVec(Mul(b, c), u));
    == { MulVecOfProduct(a, Mul(b, c), u); }
      MulVec(Mul(a, Mul(b, c)), u);
    == { MulVecUnit(Mul(a, Mul(b, c)), j); }
      ColumnVector(Mul(a, Mul(b, c)), j);
    }
  }

  /** The matrix product is associative. */
  lemma MulAssociative(a: Mat4f64, b: Mat4f64, c: Mat4f64)
    ensures Mul(Mul(a, b), c) == Mul(a, Mul(b, c))
  {
    forall j | 0 <= j < 4
      ensures ColumnVector(Mul(Mul(a, b), c), j) == ColumnVector(Mul(a, Mul(b, c)), j)
    {
      AssociativeColumn(a, b, c, j);
    }
    ColumnsDetermine(Mul(Mul(a, b), c), Mul(a, Mul(b, c)));
  }

  /** `zero()` is neutral for `+`. */
  lemma AddZero(m: Mat4f64)
    ensures Add(m, Zero()) == m
  {
    assert Add(m, Zero()).rows[0] == m.rows[0];
    assert Add(m, Zero()).rows[1] == m.rows[1];
    assert Add(m, Zero()).rows[2] == m.rows[2];
    assert Add(m, Zero()).rows[3] == m.rows[3];
  }

  /** `identity()` is neutral for the matrix product, on the left ... */
  lemma IdentityLeft(m: Mat4f64)
    ensures Mul(Identity(), m) == m
  {
    assert Identity().rows[0] == [1.0, 0.0, 0.0, 0.0];
    assert Identity().rows[1] == [0.0, 1.0, 0.0, 0.0];
    assert Identity().rows[2] == [0.0, 0.0, 1.0, 0.0];
    assert Identity().rows[3] == [0.0, 0.0, 0.0, 1.0];
    MulEntry00(Identity(), m);
    MulEntry01(Identity(), m);
    MulEntry02(Identity(), m);
    MulEntry03(Identity(), m);
    MulEntry10(Identity(), m);
    MulEntry11(Identity(), m);
    MulEntry12(Identity(), m);
    MulEntry13(Identity(), m);
    MulEntry20(Identity(), m);
    MulEntry21(Identity(), m);
    MulEntry22(Identity(), m);
    MulEntry23(Identity(), m);
    MulEntry30(Identity(), m);
    MulEntry31(Identity(), m);
    MulEntry32(Identity(), m);
    MulEntry33(Identity(), m);
    assert Mul(Identity(), m).rows[0][0] == m.rows[0][0];
    assert Mul(Identity(), m).rows[0][1] == m.rows[0][1];
    assert Mul(Identity(), m).rows[0][2] == m.rows[0][2];
    assert Mul(Identity(), m).rows[0][3] == m.rows[0][3];
    assert Mul(Identity(), m).rows[1][0] == m.rows[1][0];
    assert Mul(Identity(), m).rows[1][1] == m.rows[1][1];
    assert Mul(Identity(), m).rows[1][2] == m.rows[1][2];
    assert Mul(Identity(), m).rows[1][3] == m.rows[1][3];
    assert Mul(Identity(), m).rows[2][0] == m.rows[2][0];
    assert Mul(Identity(), m).rows[2][1] == m.rows[2][1];
    assert Mul(Identity(), m).rows[2][2] == m.rows[2][2];
    assert Mul(Identity(), m).rows[2][3] == m.rows[2][3];
    assert Mul(Identity(), m).rows[3][0] == m.rows[3][0];
    assert Mul(Identity(), m).rows[3][1] == m.rows[3][1];
    assert Mul(Identity(), m).rows[3][2] == m.rows[3][2];
    assert Mul(Identity(), m).rows[3][3] == m.rows[3][3];
    assert Mul(Identity(), m).rows[0] == m.rows[0];
    assert Mul(Identity(), m).rows[1] == m.rows[1];
    assert Mul(Identity(), m).rows[2] == m.rows[2];
    assert Mul(Identity(), m).rows[3] == m.rows[3];
  }

  /** ... and on the right. */
  lemma IdentityRight(m: Mat4f64)
    ensures Mul(m, Identity()) == m
  {
    assert Identity().rows[0] == [1.0, 0.0, 0.0, 0.0];
    assert Identity().rows[1] == [0.0, 1.0, 0.0, 0.0];
    assert Identity().rows[2] == [0.0, 0.0, 1.0, 0.0];
    assert Identity().rows[3] == [0.0, 0.0, 0.0, 1.0];
    MulEntry00(m, Identity());
    MulEntry01(m, Identity());
    MulEntry02(m, Identity());
    MulEntry03(m, Identity());
    MulEntry10(m, Identity());
    MulEntry11(m, Identity());
    MulEntry12(m, Identity());
    MulEntry13(m, Identity());
    MulEntry20(m, Identity());
    MulEntry21(m, Identity());
    MulEntry22(m, Identity());
    MulEntry23(m, Identity());
    MulEntry30(m, Identity());
    MulEntry31(m, Identity());
    MulEntry32(m, Identity());
    MulEntry33(m, Identity());
    assert Mul(m, Identity()).rows[0][0] == m.rows[0][0];
    assert Mul(m, Identity()).rows[0][1] == m.rows[0][1];
    assert Mul(m, Identity()).rows[0][2] == m.rows[0][2];
    assert Mul(m, Identity()).rows[0][3] == m.rows[0][3];
    assert Mul(m, Identity()).rows[1][0] == m.rows[1][0];
    assert Mul(m, Identity()).rows[1][1] == m.rows[1][1];
    assert Mul(m, Identity()).rows[1][2] == m.rows[1][2];
    assert Mul(m, Identity()).rows[1][3] == m.rows[1][3];
    assert Mul(m, Identity()).rows[2][0] == m.rows[2][0];
    assert Mul(m, Identity()).rows[2][1] == m.rows[2][1];
    assert Mul(m, Identity()).rows[2][2] == m.rows[2][2];
    assert Mul(m, Identity()).rows[2][3] == m.rows[2][3];
    assert Mul(m, Identity()).rows[3][0] == m.rows[3][0];
    assert Mul(m, Identity()).rows[3][1] == m.rows[3][1];
    assert Mul(m, Identity()).rows[3][2] == m.rows[3][2];
    assert Mul(m, Identity()).rows[3][3] == m.rows[3][3];
    assert Mul(m, Identity()).rows[0] == m.rows[0];
    assert Mul(m, Identity()).rows[1] == m.rows[1];
    assert Mul(m, Identity()).rows[2] == m.rows[2];
    assert Mul(m, Identity()).rows[3] == m.rows[3];
  }

  /** `identity()` leaves every vector where it is. */
  lemma IdentityApplied(v: V.Vec4f64)
    ensures MulVec(Identity(), v) == v
  {
    assert Identity().rows[0] == [1.0, 0.0, 0.0, 0.0];
    assert Identity().rows[1] == [0.0, 1.0, 0.0, 0.0];
    assert Identity().rows[2] == [0.0, 0.0, 1.0, 0.0];
    assert Identity().rows[3] == [0.0, 0.0, 0.0, 1.0];
    MulVecComponent0(Identity(), v);
    MulVecComponent1(Identity(), v);
    MulVecComponent2(Identity(), v);
    MulVecComponent3(Identity(), v);
    assert MulVec(Identity(), v).coords[0] == v.coords[0];
    assert MulVec(Identity(), v).coords[1] == v.coords[1];
    assert MulVec(Identity(), v).coords[2] == v.coords[2];
    assert MulVec(Identity(), v).coords[3] == v.coords[3];
    assert MulVec(Identity(), v).coords == v.coords;
  }

  /** The source's tests of `new`, `new_from_cols`, `transposed`, `as_row_major`
      and `as_col_major`. */
  lemma CreationExamples(m: Mat4f64, cols: Rows4)
    requires m == Mat4f64([[1.0, 2.0, 3.0, 4.0], [5.0, 6.0, 7.0, 8.0], [9.0, 10.0, 11.0, 12.0], [13.0, 14.0, 15.0, 16.0]])
    requires cols == [[1.0, 5.0, 9.0, 13.0], [2.0, 6.0, 10.0, 14.0], [3.0, 7.0, 11.0, 15.0], [4.0, 8.0, 12.0, 16.0]]
    ensures NewFromCols(cols) == m
    ensures Transposed(m) == Mat4f64(cols)
    ensures AsRowMajor(m) == m.rows && AsColMajor(m) == cols
  {
    TransposedInvolution(Mat4f64(cols));
  }

  /** The source's tests of `+`, `-`, the scalar operators and both products. */
  lemma ArithmeticExamples(m: Mat4f64, k: Mat4f64, v: V.Vec4f64)
    requires m == Mat4f64([[1.0, 2.0, 3.0, 4.0], [5.0, 6.0, 7.0, 8.0], [9.0, 10.0, 11.0, 12.0], [13.0, 14.0, 15.0, 16.0]])
    requires k == Mat4f64([[17.0, 18.0, 19.0, 20.0], [21.0, 22.0, 23.0, 24.0], [25.0, 26.0, 27.0, 28.0], [29.0, 30.0, 31.0, 32.0]])
    requires v == V.Vec4f64([2.0, 3.0, 4.0, 5.0])
    ensures Add(k, m) == Mat4f64([[18.0, 20.0, 22.0, 24.0], [26.0, 28.0, 30.0, 32.0], [34.0, 36.0, 38.0, 40.0], [42.0, 44.0, 46.0, 48.0]])
    ensures Sub(m, k) == Mat4f64([[-16.0, -16.0, -16.0, -16.0], [-16.0, -16.0, -16.0, -16.0], [-16.0, -16.0, -16.0, -16.0], [-16.0, -16.0, -16.0, -16.0]])
    ensures Scale(m, 3.0) == ScaleLeft(3.0, m) == Mat4f64([[3.0, 6.0, 9.0, 12.0], [15.0, 18.0, 21.0, 24.0], [27.0, 30.0, 33.0, 36.0], [39.0, 42.0, 45.0, 48.0]])
    ensures Div(m, 3.0) == Mat4f64([[1.0 / 3.0, 2.0 / 3.0, 3.0 / 3.0, 4.0 / 3.0], [5.0 / 3.0, 6.0 / 3.0, 7.0 / 3.0, 8.0 / 3.0], [9.0 / 3.0, 10.0 / 3.0, 11.0 / 3.0, 12.0 / 3.0], [13.0 / 3.0, 14.0 / 3.0, 15.0 / 3.0, 16.0 / 3.0]])
    ensures Mul(m, k) == Mat4f64([[250.0, 260.0, 270.0, 280.0], [618.0, 644.0, 670.0, 696.0], [986.0, 1028.0, 1070.0, 1112.0], [1354.0, 1412.0, 1470.0, 1528.0]])
    ensures MulVec(m, v) == V.Vec4f64([40.0, 96.0, 152.0, 208.0])
  {
  }

  /** A `let mut` binding of a `Mat4f64`: its entries, in row-major order,
      and the `&mut self` methods that write into them. */
  class Mat4f64Var {
    const entries: array2<real>

    predicate Valid()
      reads this
    {
      entries.Length0 == 4 && entries.Length1 == 4
    }

    function Value(): Mat4f64
      requires Valid()
      reads this, entries
    {
      Mat4f64([[entries[0, 0], entries[0, 1], entries[0, 2], entries[0, 3]], [entries[1, 0], entries[1, 1], entries[1, 2], entries[1, 3]], [entries[2, 0], entries[2, 1], entries[2, 2], entries[2, 3]], [entries[3, 0], entries[3, 1], entries[3, 2], entries[3, 3]]])
    }

    constructor (m: Mat4f64)
      ensures Valid() && fresh(entries) && Value() == m
    {
      entries := new real[4, 4];
      new;
      Store(m);
    }

    /** `*self = m`: every entry overwritten at once. */
    method Store(m: Mat4f64)
      requires Valid()
      modifies entries
      ensures Valid() && Value() == m
    {
      forall i, j | 0 <= i < 4 && 0 <= j < 4 {
        entries[i, j] := m.rows[i][j];
      }
      assert Value().rows[0] == m.rows[0];
      assert Value().rows[1] == m.rows[1];
      assert Value().rows[2] == m.rows[2];
      assert Value().rows[3] == m.rows[3];
    }

    /** `m[i][j] = x`, through `IndexMut`. */
    method SetEntry(i: nat, j: nat, x: real)
      requires Valid() && i < 4 && j < 4
      modifies entries
      ensures Valid() && Value() == Mat4f64(old(Value()).rows[i := old(Value()).rows[i][j := x]])
    {
      ghost var before := Value();
      entries[i, j] := x;
      ghost var after := Mat4f64(before.rows[i := before.rows[i][j := x]]);
      assert Value().rows[0] == after.rows[0];
      assert Value().rows[1] == after.rows[1];
      assert Value().rows[2] == after.rows[2];
      assert Value().rows[3] == after.rows[3];
    }

    /** `transpose`: `*self = self.transposed()`. */
    method Transpose()
      requires Valid()
      modifies entries
      ensures Valid() && Value() == Transposed(old(Value()))
    {
      Store(Transposed(Value()));
    }

    /** `*self = *self + rhs`. */
    method AddAssign(rhs: Mat4f64)
      requires Valid()
      modifies entries
      ensures Valid() && Value() == Add(old(Value()), rhs)
    {
      Store(Add(Value(), rhs));
    }

    /** `*self = *self - rhs`. */
    method SubAssign(rhs: Mat4f64)
      requires Valid()
      modifies entries
      ensures Valid() && Value() == Sub(old(Value()), rhs)
    {
      Store(Sub(Value(), rhs));
    }

    /** `*self = *self * scalar`. */
    method MulAssign(scalar: real)
      requires Valid()
      modifies entries
      ensures Valid() && Value() == Scale(old(Value()), scalar)
    {
      Store(Scale(Value(), scalar));
    }

    /** `*self = *self / scalar`. */
    method DivAssign(scalar: real)
      requires Valid() && scalar != 0.0
      modifies entries
      ensures Valid() && Value() == Div(old(Value()), scalar)
    {
      Store(Div(Value(), scalar));
    }

    /** `*self = *self * rhs`, the matrix product. */
    method MulAssignMat(rhs: Mat4f64)
      requires Valid()
      modifies entries
      ensures Valid() && Value() == Mul(old(Value()), rhs)
    {
      Store(Mul(Value(), rhs));
    }
  }
}

/** Polynomial identities behind the laws of module Mat4f64, stated over
    plain entries. */
module Mat4f64Identities {
  lemma ProductApplied(a0: real, a1: real, a2: real, a3: real, b00: real, b01: real, b02: real, b03: real, b10: real, b11: real, b12: real, b13: real, b20: real, b21: real, b22: real, b23: real, b30: real, b31: real, b32: real, b33: real, v0: real, v1: real, v2: real, v3: real)
    ensures (a0 * b00 + a1 * b10 + a2 * b20 + a3 * b30) * v0 + (a0 * b01 + a1 * b11 + a2 * b21 + a3 * b31) * v1 + (a0 * b02 + a1 * b12 + a2 * b22 + a3 * b32) * v2 + (a0 * b03 + a1 * b13 + a2 * b23 + a3 * b33) * v3
         == a0 * (b00 * v0 + b01 * v1 + b02 * v2 + b03 * v3) + a1 * (b10 * v0 + b11 * v1 + b12 * v2 + b13 * v3) + a2 * (b20 * v0 + b21 * v1 + b22 * v2 + b23 * v3) + a3 * (b30 * v0 + b31 * v1 + b32 * v2 + b33 * v3)
  {
  }
}
