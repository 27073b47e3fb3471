/**
 * A matrix object: `rows`, `cols` and a flat row-major array whose cells
 * `m[r, c] = x` overwrites in place. `+` and scalar `*` reuse the shared
 * elementwise arithmetic and re-wrap the result with its shape; `@` runs
 * the triple-loop accumulation. Every operation is proved against the value
 * semantics of module MatrixAlgebra.
 */
module Matrices {
  import opened Results
  import opened MatrixAlgebra
  import Vectors

  /** The right operand of `@` as the caller passes it. */
  datatype Arg = MatrixArg(m: Matrix) | VectorArg(v: Vectors.Vector) | ScalarArg(k: int)

  /** The object `@` returns: a matrix, or a plain vector for a vector operand. */
  datatype Returned = MatrixReturned(m: Matrix) | VectorReturned(v: Vectors.Vector)

  /** The objects an operand's value is read from. */
  function ArgFootprint(other: Arg): set<object>
  {
    match other
    case MatrixArg(m) => {m.data}
    case VectorArg(v) => {v.data}
    case ScalarArg(_) => {}
  }

  /** The value an operand object stands for. */
  function ArgValue(other: Arg): Operand
    reads ArgFootprint(other)
  {
    match other
    case MatrixArg(m) => MatrixOperand(m.Value())
    case VectorArg(v) => VectorOperand(v.Elements())
    case ScalarArg(k) => ScalarOperand(k)
  }

  /** The objects a product's value is read from. */
  function ReturnedFootprint(p: Returned): set<object>
  {
    match p
    case MatrixReturned(m) => {m.data}
    case VectorReturned(v) => {v.data}
  }

  /** The value a product object stands for. */
  function ReturnedValue(p: Returned): Output
    reads ReturnedFootprint(p)
  {
    match p
    case MatrixReturned(m) => MatrixOutput(m.Value())
    case VectorReturned(v) => VectorOutput(v.Elements())
  }

  class Matrix {
    const rows: nat
    const cols: nat
    /** The cells in row-major order; the array itself never changes, its slots may. */
    const data: array<int>

    /** The array holds exactly one slot per cell. */
    predicate Valid() {
      data.Length == rows * cols
    }

    /** The matrix as a value. */
    function Value(): Mat
      reads data
    {
      Mat(rows, cols, data[..])
    }

    /** A `rows`-by-`cols` matrix holding `contents` in row-major order. */
    constructor (rows: nat, cols: nat, contents: seq<int>)
      requires |contents| == rows * cols
      ensures Valid() && fresh(data)
      ensures Value() == Mat(rows, cols, contents)
    {
      this.rows := rows;
      this.cols := cols;
      data := new int[|contents|](i requires 0 <= i < |contents| => contents[i]);
    }

    /**
     * `Matrix(rows, cols, data=None)`: given data must hold `rows * cols`
     * entries, else ValueError; without data every entry is zero.
     */
    static method Create(rows: nat, cols: nat, init: Option<seq<int>>) returns (r: Result<Matrix>)
      ensures r.Err? <==> init.Some? && |init.value| != rows * cols
      ensures r.Err? ==> r.error == ValueError
      ensures r.Ok? ==> r.value.Valid() && fresh(r.value.data)
      ensures r.Ok? && init.Some? ==> r.value.Value() == Mat(rows, cols, init.value)
      ensures r.Ok? && init.None? ==> r.value.Value() == Zeros(rows, cols)
    {
      match init
      case Some(contents) =>
        if |contents| != rows * cols {
          r := Err(ValueError);
        } else {
          var m := new Matrix(rows, cols, contents);
          r := Ok(m);
        }
      case None =>
        var m := new Matrix(rows, cols, seq(rows * cols, _ => 0));
        r := Ok(m);
    }

    /** `m[r, c]`: a row or column outside the matrix raises IndexError. */
    method Get(r: int, c: int) returns (x: Result<int>)
      requires Valid()
      ensures x.Ok? <==> 0 <= r < rows && 0 <= c < cols
      ensures x.Ok? ==> x.value == Value().At(r, c)
      ensures x.Err? ==> x.error == IndexError
    {
      if 0 <= r < rows && 0 <= c < cols {
        FlatIndex(r, c, rows, cols);
        x := Ok(data[r * cols + c]);
      } else {
        x := Err(IndexError);
      }
    }

    /** `m[r, c] = x`: overwrites one cell in place; a position outside raises IndexError. */
    method Set(r: int, c: int, x: int) returns (s: Result<()>)
      requires Valid()
      modifies data
      ensures s.Ok? <==> 0 <= r < rows && 0 <= c < cols
      ensures s.Ok? ==> Value() == With(old(Value()), r, c, x)
      ensures s.Err? ==> s.error == IndexError && Value() == old(Value())
    {
      if 0 <= r < rows && 0 <= c < cols {
        FlatIndex(r, c, rows, cols);
        data[r * cols + c] := x;
        s := Ok(());
      } else {
        s := Err(IndexError);
      }
    }

    /** `m + other`: a new matrix of the same shape; a shape mismatch raises ValueError. */
    method Plus(other: Matrix) returns (r: Result<Matrix>)
      requires Valid() && other.Valid()
      ensures r.Err? <==> MatAdd(Value(), other.Value()).Err?
      ensures r.Err? ==> r.error == ValueError
      ensures r.Ok? ==> r.value.Valid() && fresh(r.value.data)
      ensures r.Ok? ==> r.value.Value() == MatAdd(Value(), other.Value()).value
    {
      var sum := MatAdd(Mat(rows, cols, data[..]), Mat(other.rows, other.cols, other.data[..]));
      if sum.Err? {
        r := Err(sum.error);
      } else {
        var m := new Matrix(rows, cols, sum.value.data);
        r := Ok(m);
      }
    }

    /** `m * k`: a new matrix of the same shape with every entry multiplied by `k`. */
    method Times(k: int) returns (r: Matrix)
      requires Valid()
      ensures r.Valid() && fresh(r.data)
      ensures r.Value() == MatScale(Value(), k)
    {
      r := new Matrix(rows, cols, MatScale(Mat(rows, cols, data[..]), k).data);
    }

    /**
     * `m @ other`: dispatches on the kind of `other`; a matrix gives a new
     * matrix, a vector a new plain vector, a mismatch ValueError and a
     * scalar TypeError.
     */
    method MatMul(other: Arg) returns (r: Result<Returned>)
      requires Valid()
      requires other.MatrixArg? ==> other.m.Valid()
      ensures r.Err? <==> MatrixAlgebra.MatMul(Value(), ArgValue(other)).Err?
      ensures r.Err? ==> r.error == MatrixAlgebra.MatMul(Value(), ArgValue(other)).error
      ensures r.Ok? ==> fresh(ReturnedFootprint(r.value))
      ensures r.Ok? && r.value.MatrixReturned? ==> r.value.m.Valid()
      ensures r.Ok? ==> ReturnedValue(r.value) == MatrixAlgebra.MatMul(Value(), ArgValue(other)).value
    {
      match other
      case ScalarArg(_) =>
        r := Err(TypeError);
      case MatrixArg(b) =>
        if cols != b.rows {
          r := Err(ValueError);
        } else {
          var m := Multiply(b);
          r := Ok(MatrixReturned(m));
        }
      case VectorArg(v) =>
        if cols != v.data.Length {
          r := Err(ValueError);
        } else {
          var w := Transform(v);
          r := Ok(VectorReturned(w));
        }
    }

    /** Row i of this matrix times column j of `b`, accumulated term by term. */
    method RowTimesColumn(b: Matrix, i: nat, j: nat) returns (acc: int)
      requires Valid() && b.Valid() && cols == b.rows && i < rows && j < b.cols
      ensures acc == RowColSum(Value(), b.Value(), i, j, cols)
    {
      acc := 0;
      var k := 0;
      while k < cols
        invariant 0 <= k <= cols
        invariant acc == RowColSum(Value(), b.Value(), i, j, k)
      {
        RowColSumStep(Value(), b.Value(), i, j, k);
        acc := acc + data[i * cols + k] * b.data[k * b.cols + j];
        k := k + 1;
      }
    }

    /** Row i of this matrix times the vector `v`, accumulated term by term. */
    method RowTimesVector(v: Vectors.Vector, i: nat) returns (acc: int)
      requires Valid() && v.Length() == cols && i < rows
      ensures acc == RowVecSum(Value(), v.Elements(), i, cols)
    {
      acc := 0;
      var k := 0;
      while k < cols
        invariant 0 <= k <= cols
        invariant acc == RowVecSum(Value(), v.Elements(), i, k)
      {
        RowVecSumStep(Value(), v.Elements(), i, k);
        acc := acc + data[i * cols + k] * v.data[k];
        k := k + 1;
      }
    }

    /** Matrix times matrix by triple-loop accumulation into a fresh row-major array. */
    method Multiply(b: Matrix) returns (res: Matrix)
      requires Valid() && b.Valid() && cols == b.rows
      ensures res.Valid() && fresh(res.data)
      ensures res.Value() == Product(Value(), b.Value())
    {
      ghost var A, B := Value(), b.Value();
      ghost var P := Product(A, B).data;
      var p := b.cols;
      var out := new int[rows * p];
      var i := 0;
      while i < rows
        invariant 0 <= i <= rows && i * p <= rows * p
        invariant forall q :: 0 <= q < i * p ==> out[q] == P[q]
      {
        var j := 0;
        while j < p
          invariant 0 <= j <= p && i * p + j <= rows * p
          invariant forall q :: 0 <= q < i * p + j ==> out[q] == P[q]
        {
          var acc := RowTimesColumn(b, i, j);
          ProductData(A, B, i, j);
          out[i * p + j] := acc;
          j := j + 1;
        }
        assert i * p + p == (i + 1) * p;
        i := i + 1;
      }
      assert out[..] == P;
      res := new Matrix(rows, p, out[..]);
    }

    /** Matrix times vector: one accumulated row-by-vector sum per row. */
    method Transform(v: Vectors.Vector) returns (w: Vectors.Vector)
      requires Valid() && v.Length() == cols
      ensures fresh(w.data)
      ensures w.Elements() == Apply(Value(), v.Elements())
    {
      ghost var A, u := Value(), v.Elements();
      ghost var Y := Apply(A, u);
      var out := new int[rows];
      var i := 0;
      while i < rows
        invariant 0 <= i <= rows
        invariant forall q :: 0 <= q < i ==> out[q] == Y[q]
      {
        var acc := RowTimesVector(v, i);
        out[i] := acc;
        i := i + 1;
      }
      assert out[..] == Y;
      w := new Vectors.Vector(out[..]);
    }
  }

  /** What the library's tests do with Matrix(2, 2, [1, 2, 3, 6]) and friends. */
  method MatrixScenario()
  {
    var c1 := Matrix.Create(2, 2, Some([1, 2, 3, 6]));
    var m1 := c1.value;
    assert m1.rows == 2 && m1.cols == 2 && m1.Value().data == [1, 2, 3, 6];
    IndexingExamples();
    var x := m1.Get(0, 0);
    assert x == Ok(1);
    x := m1.Get(0, 1);
    assert x == Ok(2);
    x := m1.Get(1, 0);
    assert x == Ok(3);
    x := m1.Get(1, 1);
    assert x == Ok(6);
    var s := m1.Set(0, 0, 100);
    assert s.Ok?;
    x := m1.Get(0, 0);
    assert x == Ok(100);

    var c3 := Matrix.Create(2, 2, Some([5, 6, 7, 8]));
    var c4 := Matrix.Create(2, 2, Some([1, 2, 3, 4]));
    var m3, m4 := c3.value, c4.value;
    ProductExample();
    var product := m4.MatMul(MatrixArg(m3));
    assert product.Ok? && product.value.MatrixReturned?;
    assert product.value.m.Value().data == [19, 22, 43, 50];

    var c9 := Matrix.Create(3, 3, None);
    var wrongShape := m4.MatMul(MatrixArg(c9.value));
    assert wrongShape == Err(ValueError);
    var wrongType := m4.MatMul(ScalarArg(5));
    assert wrongType == Err(TypeError);

    var c2 := Matrix.Create(2, 2, Some([1, 2, 3, 6]));
    ElementwiseExamples();
    var sum := c2.value.Plus(m3);
    assert sum.Ok? && sum.value.Value().data == [6, 8, 10, 14];
    var scaled := c2.value.Times(2);
    assert scaled.Value().data == [2, 4, 6, 12];

    var v := new Vectors.Vector([1, 1]);
    ApplyExamples();
    var applied := c2.value.MatMul(VectorArg(v));
    assert applied.Ok? && applied.value.VectorReturned?;
    assert applied.value.v.Elements() == [3, 9];
  }
}
