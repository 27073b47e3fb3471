/**
 * The elementwise arithmetic that vectors and matrices share: a matrix
 * applies it to its flat row-major data, a vector to its elements.
 */
module Elementwise {
  import opened Results

  /** Position-by-position sum of two sequences of the same length. */
  function Sum(a: seq<int>, b: seq<int>): (r: seq<int>)
    requires |a| == |b|
    ensures |r| == |a|
    ensures forall i :: 0 <= i < |r| ==> r[i] == a[i] + b[i]
  {
    if a == [] then [] else [a[0] + b[0]] + Sum(a[1..], b[1..])
  }

  /** Position-by-position difference of two sequences of the same length. */
  function Difference(a: seq<int>, b: seq<int>): (r: seq<int>)
    requires |a| == |b|
    ensures |r| == |a|
    ensures forall i :: 0 <= i < |r| ==> r[i] == a[i] - b[i]
  {
    if a == [] then [] else [a[0] - b[0]] + Difference(a[1..], b[1..])
  }

  /** Every element multiplied by the scalar `k`. */
  function Scaled(a: seq<int>, k: int): (r: seq<int>)
    ensures |r| == |a|
    ensures forall i :: 0 <= i < |r| ==> r[i] == k * a[i]
  {
    if a == [] then [] else [k * a[0]] + Scaled(a[1..], k)
  }

  /** `+` on two vectors: a length mismatch raises ValueError. */
  function Add(a: seq<int>, b: seq<int>): (r: Result<seq<int>>)
    ensures r.Ok? <==> |a| == |b|
    ensures r.Err? ==> r.error == ValueError
    ensures r.Ok? ==> |r.value| == |a| && forall i :: 0 <= i < |a| ==> r.value[i] == a[i] + b[i]
  {
    if |a| != |b| then Err(ValueError) else Ok(Sum(a, b))
  }

  /** `-` on two vectors: a length mismatch raises ValueError. */
  function Subtract(a: seq<int>, b: seq<int>): (r: Result<seq<int>>)
    ensures r.Ok? <==> |a| == |b|
    ensures r.Err? ==> r.error == ValueError
    ensures r.Ok? ==> |r.value| == |a| && forall i :: 0 <= i < |a| ==> r.value[i] == a[i] - b[i]
  {
    if |a| != |b| then Err(ValueError) else Ok(Difference(a, b))
  }

  /** Subtracting what was added gives back the original: (a + b) - b == a. */
  lemma {:induction false} AddThenSubtract(a: seq<int>, b: seq<int>)
    requires |a| == |b|
    ensures Add(a, b).Ok? && Subtract(Add(a, b).value, b) == Ok(a)
  {
    var s := Add(a, b).value;
    assert Difference(s, b) == a by {
      forall i | 0 <= i < |a| ensures Difference(s, b)[i] == a[i] { }
    }
  }

  /** `+` does not depend on the order of its operands. */
  lemma AddCommutes(a: seq<int>, b: seq<int>)
    ensures Add(a, b) == Add(b, a)
  {
    if |a| == |b| {
      assert Sum(a, b) == Sum(b, a);
    }
  }

  /** The concrete sums and differences the library's tests expect. */
  lemma VectorExamples()
    ensures Add([1, 2, 3], [4, 5, 6]) == Ok([5, 7, 9])
    ensures Subtract([4, 5, 6], [1, 2, 3]) == Ok([3, 3, 3])
    ensures Add([1, 2, 3], [4, 5]) == Err(ValueError)
  {
    assert Sum([1, 2, 3], [4, 5, 6]) == [5, 7, 9];
    assert Difference([4, 5, 6], [1, 2, 3]) == [3, 3, 3];
  }
}
