# unimathlib core in Dafny

A model of the integer core of `unimathlib`: a `Vector` of numbers with
elementwise `+` and `-`, a row-major `Matrix` with 2D indexing, in-place cell
assignment, `+`, scalar `*` and the `@` product (matrix × matrix gives a
matrix, matrix × vector gives a plain vector), and the counting functions
`factorial`, `permutations`, `combinations`, `arrangements` and
`arrangements_with_repetition`.

The library's implementation modules are not part of this model:
`unimathutils/linalg/vector.py`, `unimathutils/linalg/matrix.py` and
`unimathutils/stats/combinatorics.py`. The behaviour modelled here is the one
the test suite `tests/main.py` pins down: same error kinds, same shapes, same
values. Where the tests are silent, the model chooses as follows:

- an index outside the matrix or vector raises IndexError;
- `Matrix(rows, cols, data)` with a data length other than `rows * cols`
  raises ValueError;
- matrix `+` needs equal `rows` and equal `cols`, not just equal lengths.

Files:

- `results.dfy` (module `Results`): the exception kinds (`TypeError`,
  `ValueError`, `IndexError`), and `Result` and `Option`.
- `elementwise.dfy` (module `Elementwise`): the elementwise sum, difference
  and scaling over `seq<int>`. Vectors and matrices both use it. The library
  gets this by having `Matrix` subclass `Vector`; here it is one shared module.
- `vector.dfy` (module `Vectors`): class `Vector` over an `array<int>`.
- `matrix_values.dfy` (module `MatrixAlgebra`): matrices as values `Mat(rows,
  cols, data)`. Holds the row-major addressing `r * cols + c`, what `+`,
  scalar `*` and `@` compute, and the lemmas about them. The `@` operand is a
  tagged `Operand` (matrix, vector or scalar). Its result is a tagged `Output`
  (matrix or vector).
- `matrix.dfy` (module `Matrices`): class `Matrix`. It has `const rows`,
  `const cols` and a flat `array<int>`. `Set` overwrites one slot in place.
  `MatMul` dispatches on the operand's tag and runs the triple-loop
  accumulation. Every method is proved against the value semantics in
  `MatrixAlgebra`.
- `combinatorics.dfy` (module `Combinatorics`): `combinations` and
  `arrangements` are written as factorial quotients and proved equal to
  independent recursive definitions: Pascal's rule (`Binomial`) and the
  falling factorial (`Falling`). `permutations` is proved equal to
  `Falling(n, n)`. `factorial` and `arrangements_with_repetition` are given by
  their recurrences (`Fact` and `Pow`). The lemmas `BinomialFactorials`,
  `FallingFactorial`, `ArrangementsEdges` and
  `ArrangementsAtMostWithRepetition` tie those recurrences to the other
  definitions.
- `arithmetic.dfy` (module `Arithmetic`): small facts about multiplication
  and Euclidean division that the proofs rely on.

The methods `Vectors.VectorScenario` and `Matrices.MatrixScenario` are
clients with no contract of their own. They replay the steps of the test
classes `TestVector` (`tests/main.py:31-47`) and `TestMatrix`
(`tests/main.py:65-121`) against the class interfaces. Each replayed
assertion is proved from the methods' contracts and the example lemmas
(`VectorExamples`, `IndexingExamples`, `ElementwiseExamples`,
`ProductExample`, `ApplyExamples`).

Where the test suite disagrees with itself, the assertion wins. The comment
at `tests/main.py:108` gives `[7]` as the second entry of
`[1 2; 3 6] @ [1, 1]`, but the assertion at line 112 expects `[3, 9]`, and
`[3, 9]` is what the model computes (`MatrixAlgebra.ApplyExamples`).

## Model

| member | source | states |
|---|---|---|
| Elementwise.Sum | tests/main.py:43-44 | same length as the operands; entry i is a[i] + b[i] |
| Elementwise.Difference | tests/main.py:46-47 | same length as the operands; entry i is a[i] - b[i] |
| Elementwise.Scaled | tests/main.py:93-95 | same length; entry i is k * a[i] |
| Elementwise.Add | tests/main.py:41-44 | vector `+` succeeds exactly when the lengths agree (else ValueError); the result has that length and holds the elementwise sums |
| Elementwise.Subtract | tests/main.py:45-47 | vector `-` succeeds exactly when the lengths agree (else ValueError); the result holds the elementwise differences |
| Elementwise.AddThenSubtract | tests/main.py:41-47 | (a + b) - b == a for every pair of equal-length vectors |
| Elementwise.AddCommutes | tests/main.py:43-44 | a + b == b + a, errors included |
| Elementwise.VectorExamples | tests/main.py:41-47 | [1,2,3] + [4,5,6] == [5,7,9]; [4,5,6] - [1,2,3] == [3,3,3]; a length mismatch is ValueError |
| Vectors.Vector.constructor | tests/main.py:26-27 | a new vector holds exactly the given elements, in order |
| Vectors.Vector.Length | tests/main.py:33 | `len(v)` is the number of elements |
| Vectors.Vector.Get | tests/main.py:35 | `v[i]` is the i-th element for 0 <= i < len(v), IndexError otherwise |
| Vectors.Vector.Plus | tests/main.py:43-44 | `v + w` is a new vector holding `Elementwise.Add` of the two, or ValueError on a length mismatch |
| Vectors.Vector.Minus | tests/main.py:46-47 | `v - w` is a new vector holding `Elementwise.Subtract` of the two, or ValueError on a length mismatch |
| Vectors.Vector.Times | tests/main.py:48 | `v * k` is a new vector holding every element times k (line 48 only names scalar multiplication; the suite asserts nothing about vector `* k`) |
| MatrixAlgebra.FlatIndex | tests/main.py:72-76 | cell (r, c) of a rows-by-cols grid is at flat index r * cols + c, which lies inside the data and gives back r and c by division |
| MatrixAlgebra.Zeros | tests/main.py:115 | `Matrix(rows, cols)` without data has that shape and every entry 0 |
| MatrixAlgebra.With | tests/main.py:79 | a cell assignment keeps the shape |
| MatrixAlgebra.WithAt | tests/main.py:78-80 | after `m[r, c] = x`, `m[r, c]` reads x and every other cell is unchanged |
| MatrixAlgebra.MatAdd | tests/main.py:87-90 | matrix `+` succeeds exactly when rows and cols agree (else ValueError) and returns a matrix of that shape |
| MatrixAlgebra.MatAddAt | tests/main.py:87-90 | each cell of the sum is the sum of the cells |
| MatrixAlgebra.MatScale | tests/main.py:93-95 | `m * k` is a matrix of the same shape, not a bare vector |
| MatrixAlgebra.MatScaleAt | tests/main.py:93-95 | each cell of `m * k` is k times the cell |
| MatrixAlgebra.Product | tests/main.py:99-104 | an m-by-n times n-by-p product has shape m-by-p |
| MatrixAlgebra.ProductAt | tests/main.py:99-104 | entry (i, j) of the product is the sum over k of a[i, k] * b[k, j] |
| MatrixAlgebra.Apply | tests/main.py:106-112 | an m-by-n matrix times a length-n vector is a vector of length m |
| MatrixAlgebra.ApplyIsProductWithColumn | tests/main.py:106-112 | matrix × vector equals the matrix product against the vector taken as an n-by-1 column; so entry i is the sum over k of m[i, k] * v[k] |
| MatrixAlgebra.ProductIdentity | tests/main.py:99-104 | multiplying by the identity on the right gives the matrix back |
| MatrixAlgebra.MatMul | tests/main.py:99-121 | `@` fails exactly on a scalar (TypeError) or a dimension mismatch (ValueError); a matrix operand gives a rows-by-other.cols matrix, a vector operand gives a plain vector of length rows |
| MatrixAlgebra.IndexingExamples | tests/main.py:72-80 | [1,2,3,6] reads 1, 2, 3, 6 at (0,0), (0,1), (1,0), (1,1); writing 100 at (0,0) reads back 100 |
| MatrixAlgebra.ElementwiseExamples | tests/main.py:87-95 | [1,2,3,6] + [5,6,7,8] == [6,8,10,14]; [1,2,3,6] * 2 == [2,4,6,12] |
| MatrixAlgebra.ProductExample | tests/main.py:99-104 | [1,2,3,4] @ [5,6,7,8] is the matrix [19,22,43,50] |
| MatrixAlgebra.ApplyExamples | tests/main.py:106-121 | [1,2,3,6] @ [1,1] is the vector [3,9]; @ a 3-by-3 is ValueError; @ 5 is TypeError |
| Matrices.Matrix.constructor | tests/main.py:65-68 | a new matrix keeps rows, cols and the row-major data it was given |
| Matrices.Matrix.Create | tests/main.py:54-58 | `Matrix(rows, cols, data)` fails with ValueError exactly when data is given with a length other than rows * cols; without data every entry is 0 |
| Matrices.Matrix.Get | tests/main.py:72-76 | `m[r, c]` is the cell at flat index r * cols + c; a row or column out of range is IndexError |
| Matrices.Matrix.Set | tests/main.py:78-80 | `m[r, c] = x` changes that one slot in place (the value `With`); out of range is IndexError and changes nothing |
| Matrices.Matrix.Plus | tests/main.py:87-90 | `m + other` is a new Matrix holding `MatAdd`, or ValueError on a shape mismatch |
| Matrices.Matrix.Times | tests/main.py:93-95 | `m * k` is a new Matrix holding `MatScale` |
| Matrices.Matrix.MatMul | tests/main.py:99-121 | `m @ other` returns exactly what `MatrixAlgebra.MatMul` gives for the operand's value: a new Matrix, a new plain Vector, ValueError or TypeError |
| Matrices.Matrix.RowTimesColumn | tests/main.py:99-104 | the accumulation loop computes the full row-by-column sum |
| Matrices.Matrix.RowTimesVector | tests/main.py:106-112 | the accumulation loop computes the full row-by-vector sum |
| Matrices.Matrix.Multiply | tests/main.py:99-104 | the triple loop fills a fresh rows-by-other.cols matrix equal to `Product` |
| Matrices.Matrix.Transform | tests/main.py:106-112 | the double loop fills a fresh vector equal to `Apply` |
| Combinatorics.Fact | tests/main.py:129-132 | n! is at least 1 |
| Combinatorics.Factorial | tests/main.py:129-132 | defined exactly for n >= 0 (else ValueError); 1 at n = 0, and n * (n - 1)! above it |
| Combinatorics.Permutations | tests/main.py:153-159 | defined exactly for n >= 0 (else ValueError); the number of orderings of all n items |
| Combinatorics.Combinations | tests/main.py:142-148 | defined exactly for 0 <= k <= n (else ValueError); the factorial quotient equals Pascal's binomial number |
| Combinatorics.Arrangements | tests/main.py:164-174 | defined exactly for 0 <= k <= n (else ValueError); the factorial quotient equals the falling factorial n (n-1) ... (n-k+1) |
| Combinatorics.ArrangementsWithRepetition | tests/main.py:179-187 | defined exactly for n >= 0 and k >= 0 (else ValueError); 1 for k = 0, and n times the value for k - 1 |
| Combinatorics.BinomialFactorials | tests/main.py:142-144 | C(n, k) * k! * (n - k)! == n!, so the quotient in `combinations` is exact |
| Combinatorics.FallingFactorial | tests/main.py:164-166 | A(n, k) * (n - k)! == n!, so the quotient in `arrangements` is exact |
| Combinatorics.CombinationsEdges | tests/main.py:144 | C(n, 0) == C(n, n) == 1 |
| Combinatorics.CombinationsSymmetric | tests/main.py:142-143 | C(n, k) == C(n, n - k) |
| Combinatorics.ArrangementsAreOrderedCombinations | tests/main.py:164-166 | A(n, k) == C(n, k) * k! |
| Combinatorics.ArrangementsEdges | tests/main.py:168-170 | A(n, n) == factorial(n) == permutations(n), and A(n, 0) == 1 |
| Combinatorics.ArrangementsAtMostWithRepetition | tests/main.py:179-180 | A(n, k) <= n ** k |
| Combinatorics.CountingExamples | tests/main.py:127-187 | every value and every ValueError the counting tests expect |

## Left out

- `binomial_probability` (`tests/main.py:190-212`): its result is a floating-point number. Its integer check k > n is the one `Combinations` models.
- Floating-point elements such as `Vector([1.5, 2.5])`: elements are integers.
- Runtime type checks: `Vector(["a", "b"])` raising TypeError and `factorial(2.5)` raising TypeError cannot arise, because arguments are typed. The same goes for `*` with a non-numeric operand. The TypeError of `@` with a scalar is modelled through the tagged operand.
- The `Matrix`-is-a-`Vector` subclass relation: both classes share the `Elementwise` functions instead.
- Matrix `-`: the tests do not say whether the result of subtracting two matrices keeps its shape.
- Vector element assignment `v[i] = x`: no test exercises it; only matrix cell assignment is modelled.
- Negative indices: a position outside 0 .. len - 1 is IndexError. Python's wrap-around for negative list indices is not modelled, since the implementation's indexing code is not part of this model.
- `factorial` of a negative number: modelled as ValueError, the error `permutations` raises for the same input.
- Object printing, equality and the test harness (path setup, imports, fixtures).
