/**
 * Matrices as values: a shape and flat row-major data, the 2D addressing
 * over it, and what `+`, scalar `*` and `@` compute. The class in
 * matrix.dfy is proved against these definitions.
 */
module MatrixAlgebra {
  import opened Results
  import Elementwise
  import opened Arithmetic

  /** Cell (r, c) of a rows-by-cols grid sits inside the flat data, and the flat index gives back r and c. */
  lemma FlatIndex(r: nat, c: nat, rows: nat, cols: nat)
    requires r < rows && c < cols
    ensures r * cols + c < rows * cols
    ensures (r * cols + c) / cols == r && (r * cols + c) % cols == c
  {
    MulMonotoneLeft(r + 1, rows, cols);
    Distributes(r, 1, cols);
    DivModUnique(r * cols + c, cols, r, c);
  }

  /** Every flat index of a rows-by-cols grid is the flat index of one cell. */
  lemma FlatSplit(idx: int, rows: nat, cols: nat)
    requires 0 <= idx < rows * cols
    ensures cols > 0
    ensures 0 <= idx / cols < rows && 0 <= idx % cols < cols
    ensures (idx / cols) * cols + idx % cols == idx
  {
  }

  /** A matrix: `rows`, `cols` and the `rows * cols` entries in row-major order. */
  datatype Mat = Mat(rows: nat, cols: nat, data: seq<int>) {

    /** The data holds exactly one entry per cell. */
    predicate Valid() {
      |data| == rows * cols
    }

    /** `m[r, c]`: the entry at flat index `r * cols + c`. */
    function At(r: nat, c: nat): int
      requires Valid() && r < rows && c < cols
    {
      FlatIndex(r, c, rows, cols);
      data[r * cols + c]
    }
  }

  /** `Matrix(rows, cols)` without data: every entry zero. */
  function Zeros(rows: nat, cols: nat): (m: Mat)
    ensures m.Valid() && m.rows == rows && m.cols == cols
    ensures forall r: nat, c: nat :: r < rows && c < cols ==> m.At(r, c) == 0
  {
    var m := Mat(rows, cols, seq(rows * cols, _ => 0));
    assert forall r: nat, c: nat :: r < rows && c < cols ==> m.At(r, c) == 0 by {
      forall r: nat, c: nat | r < rows && c < cols ensures m.At(r, c) == 0 {
        FlatIndex(r, c, rows, cols);
      }
    }
    m
  }

  /** The matrix after `m[r, c] = x`: same shape, one flat slot replaced. */
  function With(m: Mat, r: nat, c: nat, x: int): (m': Mat)
    requires m.Valid() && r < m.rows && c < m.cols
    ensures m'.Valid() && m'.rows == m.rows && m'.cols == m.cols
  {
    FlatIndex(r, c, m.rows, m.cols);
    Mat(m.rows, m.cols, m.data[r * m.cols + c := x])
  }

  /** After `m[r, c] = x`, reading `m[r, c]` gives `x` and every other cell is as before. */
  lemma WithAt(m: Mat, r: nat, c: nat, x: int)
    requires m.Valid() && r < m.rows && c < m.cols
    ensures With(m, r, c, x).At(r, c) == x
    ensures forall i: nat, j: nat :: i < m.rows && j < m.cols && (i != r || j != c) ==>
      With(m, r, c, x).At(i, j) == m.At(i, j)
  {
    FlatIndex(r, c, m.rows, m.cols);
    forall i: nat, j: nat | i < m.rows && j < m.cols && (i != r || j != c)
      ensures With(m, r, c, x).At(i, j) == m.At(i, j)
    {
      FlatIndex(i, j, m.rows, m.cols);
    }
  }

  /** `m + other`: the shapes must agree, else ValueError; the result keeps the shape. */
  function MatAdd(a: Mat, b: Mat): (r: Result<Mat>)
    requires a.Valid() && b.Valid()
    ensures r.Ok? <==> a.rows == b.rows && a.cols == b.cols
    ensures r.Err? ==> r.error == ValueError
    ensures r.Ok? ==> r.value.Valid() && r.value.rows == a.rows && r.value.cols == a.cols
  {
    if a.rows != b.rows || a.cols != b.cols then Err(ValueError)
    else Ok(Mat(a.rows, a.cols, Elementwise.Sum(a.data, b.data)))
  }

  /** The sum of two matrices of one shape is their cell-by-cell sum. */
  lemma MatAddAt(a: Mat, b: Mat)
    requires a.Valid() && b.Valid() && a.rows == b.rows && a.cols == b.cols
    ensures forall i: nat, j: nat :: i < a.rows && j < a.cols ==>
      MatAdd(a, b).value.At(i, j) == a.At(i, j) + b.At(i, j)
  {
    forall i: nat, j: nat | i < a.rows && j < a.cols
      ensures MatAdd(a, b).value.At(i, j) == a.At(i, j) + b.At(i, j)
    {
      FlatIndex(i, j, a.rows, a.cols);
    }
  }

  /** `m * k`: a matrix of the same shape, not a bare vector. */
  function MatScale(a: Mat, k: int): (r: Mat)
    requires a.Valid()
    ensures r.Valid() && r.rows == a.rows && r.cols == a.cols
  {
    Mat(a.rows, a.cols, Elementwise.Scaled(a.data, k))
  }

  /** Scaling multiplies every cell by the scalar. */
  lemma MatScaleAt(a: Mat, k: int)
    requires a.Valid()
    ensures forall i: nat, j: nat :: i < a.rows && j < a.cols ==>
      MatScale(a, k).At(i, j) == k * a.At(i, j)
  {
    forall i: nat, j: nat | i < a.rows && j < a.cols
      ensures MatScale(a, k).At(i, j) == k * a.At(i, j)
    {
      FlatIndex(i, j, a.rows, a.cols);
    }
  }

  /** The partial sum of a[i, t] * b[t, j] over t < n. */
  function RowColSum(a: Mat, b: Mat, i: nat, j: nat, n: nat): int
    requires a.Valid() && b.Valid() && a.cols == b.rows
    requires i < a.rows && j < b.cols && n <= a.cols
  {
    if n == 0 then 0 else RowColSum(a, b, i, j, n - 1) + a.At(i, n - 1) * b.At(n - 1, j)
  }

  /** The linear-algebra product of an m-by-n and an n-by-p matrix. */
  function Product(a: Mat, b: Mat): (r: Mat)
    requires a.Valid() && b.Valid() && a.cols == b.rows
    ensures r.Valid() && r.rows == a.rows && r.cols == b.cols
  {
    Mat(a.rows, b.cols, seq(a.rows * b.cols, idx requires 0 <= idx < a.rows * b.cols =>
      FlatSplit(idx, a.rows, b.cols);
      RowColSum(a, b, idx / b.cols, idx % b.cols, a.cols)))
  }

  /** The flat slot of cell (i, j) of a product holds the full row-by-column sum. */
  lemma ProductData(a: Mat, b: Mat, i: nat, j: nat)
    requires a.Valid() && b.Valid() && a.cols == b.rows
    requires i < a.rows && j < b.cols
    ensures i * b.cols + j < |Product(a, b).data|
    ensures Product(a, b).data[i * b.cols + j] == RowColSum(a, b, i, j, a.cols)
  {
    FlatIndex(i, j, a.rows, b.cols);
  }

  /** Entry (i, j) of a product is the sum over k of a[i, k] * b[k, j]. */
  lemma ProductAt(a: Mat, b: Mat)
    requires a.Valid() && b.Valid() && a.cols == b.rows
    ensures forall i: nat, j: nat :: i < a.rows && j < b.cols ==>
      Product(a, b).At(i, j) == RowColSum(a, b, i, j, a.cols)
  {
    forall i: nat, j: nat | i < a.rows && j < b.cols
      ensures Product(a, b).At(i, j) == RowColSum(a, b, i, j, a.cols)
    {
      ProductData(a, b, i, j);
    }
  }

  /** One more term of a row-by-column sum, read straight from the flat data. */
  lemma RowColSumStep(a: Mat, b: Mat, i: nat, j: nat, k: nat)
    requires a.Valid() && b.Valid() && a.cols == b.rows
    requires i < a.rows && j < b.cols && k < a.cols
    ensures i * a.cols + k < |a.data| && k * b.cols + j < |b.data|
    ensures RowColSum(a, b, i, j, k + 1)
      == RowColSum(a, b, i, j, k) + a.data[i * a.cols + k] * b.data[k * b.cols + j]
  {
    FlatIndex(i, k, a.rows, a.cols);
    FlatIndex(k, j, b.rows, b.cols);
  }

  /** The partial sum of a[i, t] * v[t] over t < n. */
  function RowVecSum(a: Mat, v: seq<int>, i: nat, n: nat): int
    requires a.Valid() && |v| == a.cols && i < a.rows && n <= a.cols
  {
    if n == 0 then 0 else RowVecSum(a, v, i, n - 1) + a.At(i, n - 1) * v[n - 1]
  }

  /** The product of an m-by-n matrix and a vector of length n: a vector of length m. */
  function Apply(a: Mat, v: seq<int>): (r: seq<int>)
    requires a.Valid() && |v| == a.cols
    ensures |r| == a.rows
  {
    seq(a.rows, i requires 0 <= i < a.rows => RowVecSum(a, v, i, a.cols))
  }

  /** One more term of a row-by-vector sum, read straight from the flat data. */
  lemma RowVecSumStep(a: Mat, v: seq<int>, i: nat, k: nat)
    requires a.Valid() && |v| == a.cols && i < a.rows && k < a.cols
    ensures i * a.cols + k < |a.data|
    ensures RowVecSum(a, v, i, k + 1) == RowVecSum(a, v, i, k) + a.data[i * a.cols + k] * v[k]
  {
    FlatIndex(i, k, a.rows, a.cols);
  }

  /** A vector seen as a one-column matrix. */
  function Column(v: seq<int>): (m: Mat)
    ensures m.Valid() && m.rows == |v| && m.cols == 1
  {
    Mat(|v|, 1, v)
  }

  lemma {:induction false} RowVecSumIsRowColSum(a: Mat, v: seq<int>, i: nat, n: nat)
    requires a.Valid() && |v| == a.cols && i < a.rows && n <= a.cols
    ensures RowVecSum(a, v, i, n) == RowColSum(a, Column(v), i, 0, n)
  {
    if n > 0 {
      RowVecSumIsRowColSum(a, v, i, n - 1);
      assert Column(v).At(n - 1, 0) == v[n - 1];
    }
  }

  /** Matrix-times-vector agrees with the matrix product against the vector as a column. */
  lemma ApplyIsProductWithColumn(a: Mat, v: seq<int>)
    requires a.Valid() && |v| == a.cols
    ensures Apply(a, v) == Product(a, Column(v)).data
  {
    var p := Product(a, Column(v));
    forall i | 0 <= i < a.rows ensures Apply(a, v)[i] == p.data[i] {
      RowVecSumIsRowColSum(a, v, i, a.cols);
      FlatIndex(i, 0, a.rows, 1);
    }
  }

  /** The n-by-n identity matrix. */
  function Identity(n: nat): (m: Mat)
    ensures m.Valid() && m.rows == n && m.cols == n
  {
    Mat(n, n, seq(n * n, idx requires 0 <= idx < n * n =>
      FlatSplit(idx, n, n);
      if idx / n == idx % n then 1 else 0))
  }

  lemma IdentityAt(n: nat, r: nat, c: nat)
    requires r < n && c < n
    ensures Identity(n).At(r, c) == if r == c then 1 else 0
  {
    FlatIndex(r, c, n, n);
  }

  lemma {:induction false} RowColSumIdentity(a: Mat, i: nat, j: nat, n: nat)
    requires a.Valid() && i < a.rows && j < a.cols && n <= a.cols
    ensures RowColSum(a, Identity(a.cols), i, j, n) == if j < n then a.At(i, j) else 0
  {
    if n > 0 {
      RowColSumIdentity(a, i, j, n - 1);
      IdentityAt(a.cols, n - 1, j);
    }
  }

  /** Multiplying by the identity on the right changes nothing. */
  lemma ProductIdentity(a: Mat)
    requires a.Valid()
    ensures Product(a, Identity(a.cols)) == a
  {
    var p := Product(a, Identity(a.cols));
    forall idx | 0 <= idx < |a.data| ensures p.data[idx] == a.data[idx] {
      FlatSplit(idx, a.rows, a.cols);
      var i, j := idx / a.cols, idx % a.cols;
      RowColSumIdentity(a, i, j, a.cols);
    }
  }

  /** The right operand of `@`, tagged by its kind. */
  datatype Operand = MatrixOperand(m: Mat) | VectorOperand(v: seq<int>) | ScalarOperand(k: int)

  /** What `@` returns: a matrix, or a plain vector when the right operand is a vector. */
  datatype Output = MatrixOutput(m: Mat) | VectorOutput(v: seq<int>)

  /**
   * `a @ other`. A matrix operand needs `a.cols == other.rows` and gives a
   * matrix; a vector operand needs `a.cols == len(other)` and gives a vector;
   * a mismatch raises ValueError and a scalar raises TypeError.
   */
  function MatMul(a: Mat, other: Operand): (r: Result<Output>)
    requires a.Valid()
    requires other.MatrixOperand? ==> other.m.Valid()
    ensures r.Err? <==> match other
      case MatrixOperand(b) => a.cols != b.rows
      case VectorOperand(v) => a.cols != |v|
      case ScalarOperand(_) => true
    ensures r.Err? ==> (r.error == TypeError <==> other.ScalarOperand?)
    ensures r.Err? ==> (r.error == ValueError <==> !other.ScalarOperand?)
    ensures r.Ok? ==> (r.value.MatrixOutput? <==> other.MatrixOperand?)
    ensures r.Ok? && other.MatrixOperand? ==>
      r.value.m.Valid() && r.value.m.rows == a.rows && r.value.m.cols == other.m.cols
    ensures r.Ok? && other.VectorOperand? ==> |r.value.v| == a.rows
  {
    match other
    case MatrixOperand(b) =>
      if a.cols != b.rows then Err(ValueError) else Ok(MatrixOutput(Product(a, b)))
    case VectorOperand(v) =>
      if a.cols != |v| then Err(ValueError) else Ok(VectorOutput(Apply(a, v)))
    case ScalarOperand(_) =>
      Err(TypeError)
  }

  /** Reading and writing the 2-by-2 matrix [1, 2, 3, 6] of the library's tests. */
  lemma IndexingExamples()
    ensures Mat(2, 2, [1, 2, 3, 6]).At(0, 0) == 1 && Mat(2, 2, [1, 2, 3, 6]).At(0, 1) == 2
    ensures Mat(2, 2, [1, 2, 3, 6]).At(1, 0) == 3 && Mat(2, 2, [1, 2, 3, 6]).At(1, 1) == 6
    ensures With(Mat(2, 2, [1, 2, 3, 6]), 0, 0, 100).At(0, 0) == 100
  {
    WithAt(Mat(2, 2, [1, 2, 3, 6]), 0, 0, 100);
  }

  /** The elementwise results the library's tests expect. */
  lemma ElementwiseExamples()
    ensures MatAdd(Mat(2, 2, [1, 2, 3, 6]), Mat(2, 2, [5, 6, 7, 8])) == Ok(Mat(2, 2, [6, 8, 10, 14]))
    ensures MatScale(Mat(2, 2, [1, 2, 3, 6]), 2) == Mat(2, 2, [2, 4, 6, 12])
  {
    assert Elementwise.Sum([1, 2, 3, 6], [5, 6, 7, 8]) == [6, 8, 10, 14];
    assert Elementwise.Scaled([1, 2, 3, 6], 2) == [2, 4, 6, 12];
  }

  /** [1, 2; 3, 4] @ [5, 6; 7, 8] == [19, 22; 43, 50], a matrix. */
  lemma ProductExample()
    ensures MatMul(Mat(2, 2, [1, 2, 3, 4]), MatrixOperand(Mat(2, 2, [5, 6, 7, 8])))
      == Ok(MatrixOutput(Mat(2, 2, [19, 22, 43, 50])))
  {
    var a, b := Mat(2, 2, [1, 2, 3, 4]), Mat(2, 2, [5, 6, 7, 8]);
    ProductAt(a, b);
    var p := Product(a, b);
    assert p.At(0, 0) == 19 && p.At(0, 1) == 22 && p.At(1, 0) == 43 && p.At(1, 1) == 50;
    assert p.data == [19, 22, 43, 50] by {
      assert p.data[0] == p.At(0, 0) && p.data[1] == p.At(0, 1);
      assert p.data[2] == p.At(1, 0) && p.data[3] == p.At(1, 1);
    }
  }

  /** [1, 2; 3, 6] @ [1, 1] == [3, 9], a plain vector; a 3-by-3 or a scalar operand fails. */
  lemma ApplyExamples()
    ensures MatMul(Mat(2, 2, [1, 2, 3, 6]), VectorOperand([1, 1])) == Ok(VectorOutput([3, 9]))
    ensures MatMul(Mat(2, 2, [1, 2, 3, 6]), MatrixOperand(Zeros(3, 3))) == Err(ValueError)
    ensures MatMul(Mat(2, 2, [1, 2, 3, 6]), ScalarOperand(5)) == Err(TypeError)
  {
    var m1 := Mat(2, 2, [1, 2, 3, 6]);
    assert RowVecSum(m1, [1, 1], 0, 2) == 3;
    assert RowVecSum(m1, [1, 1], 1, 2) == 9;
    assert Apply(m1, [1, 1]) == [3, 9];
  }
}
