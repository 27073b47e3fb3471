/**
 * A vector: a fixed-length sequence of integers held in an array, with
 * `+`, `-` and scalar `*` delegated to the shared elementwise arithmetic.
 */
module Vectors {
  import opened Results
  import Elementwise

  class Vector {
    /** The elements; the array itself never changes, its slots may. */
    const data: array<int>

    /** The elements as a sequence. */
    function Elements(): seq<int>
      reads data
    {
      data[..]
    }

    /** A vector holding `contents`, in order. */
    constructor (contents: seq<int>)
      ensures fresh(data)
      ensures Elements() == contents
    {
      data := new int[|contents|](i requires 0 <= i < |contents| => contents[i]);
    }

    /** `len(v)`: the number of elements. */
    function Length(): (n: nat)
      reads data
      ensures n == |Elements()|
    {
      data.Length
    }

    /** `v[i]`: the i-th element; a position outside the vector raises IndexError. */
    method Get(i: int) returns (r: Result<int>)
      ensures r.Ok? <==> 0 <= i < |Elements()|
      ensures r.Ok? ==> r.value == Elements()[i]
      ensures r.Err? ==> r.error == IndexError
    {
      if 0 <= i < data.Length {
        r := Ok(data[i]);
      } else {
        r := Err(IndexError);
      }
    }

    /** `v + other`: a new vector of elementwise sums; a length mismatch raises ValueError. */
    method Plus(other: Vector) returns (r: Result<Vector>)
      ensures r.Err? <==> Elementwise.Add(Elements(), other.Elements()).Err?
      ensures r.Err? ==> r.error == ValueError
      ensures r.Ok? ==> fresh(r.value.data)
      ensures r.Ok? ==> r.value.Elements() == Elementwise.Add(Elements(), other.Elements()).value
    {
      var s := Elementwise.Add(data[..], other.data[..]);
      if s.Err? {
        r := Err(s.error);
      } else {
        var v := new Vector(s.value);
        r := Ok(v);
      }
    }

    /** `v - other`: a new vector of elementwise differences; a length mismatch raises ValueError. */
    method Minus(other: Vector) returns (r: Result<Vector>)
      ensures r.Err? <==> Elementwise.Subtract(Elements(), other.Elements()).Err?
      ensures r.Err? ==> r.error == ValueError
      ensures r.Ok? ==> fresh(r.value.data)
      ensures r.Ok? ==> r.value.Elements() == Elementwise.Subtract(Elements(), other.Elements()).value
    {
      var s := Elementwise.Subtract(data[..], other.data[..]);
      if s.Err? {
        r := Err(s.error);
      } else {
        var v := new Vector(s.value);
        r := Ok(v);
      }
    }

    /** `v * k`: a new vector with every element multiplied by `k`. */
    method Times(k: int) returns (r: Vector)
      ensures fresh(r.data)
      ensures r.Elements() == Elementwise.Scaled(Elements(), k)
    {
      r := new Vector(Elementwise.Scaled(data[..], k));
    }
  }

  /** What the library's tests do with `Vector([1, 2, 3])` and `Vector([4, 5, 6])`. */
  method VectorScenario()
  {
    var v1 := new Vector([1, 2, 3]);
    var v2 := new Vector([4, 5, 6]);
    assert v1.Length() == 3;
    var first := v1.Get(0);
    assert first == Ok(1);
    var sum := v1.Plus(v2);
    Elementwise.VectorExamples();
    assert sum.Ok? && sum.value.Elements() == [5, 7, 9];
    var difference := v2.Minus(v1);
    assert difference.Ok? && difference.value.Elements() == [3, 3, 3];
  }
}
