/** Facts about integer multiplication and division that the proofs lean on. */
module Arithmetic {

  lemma MulAtLeast(k: int, d: int)
    requires k >= 1 && d > 0
    ensures k * d >= d
  {
  }

  /** Euclidean division by a positive divisor has exactly one quotient and remainder. */
  lemma DivModUnique(x: int, d: int, q: int, m: int)
    requires d > 0 && 0 <= m < d && x == q * d + m
    ensures x / d == q && x % d == m
  {
    var q', m' := x / d, x % d;
    assert x == q' * d + m';
    var k := q - q';
    assert k * d == q * d - q' * d;
    if k >= 1 {
      MulAtLeast(k, d);
    } else if k <= -1 {
      MulAtLeast(-k, d);
    }
  }

  /** A common positive factor can be cancelled. */
  lemma Cancel(a: int, b: int, c: int)
    requires c > 0 && a * c == b * c
    ensures a == b
  {
    assert (a - b) * c == a * c - b * c;
  }

  lemma MulMonotone(n: nat, x: int, y: int)
    requires x <= y
    ensures n * x <= n * y
  {
  }

  lemma MulMonotoneLeft(x: int, y: int, n: nat)
    requires x <= y
    ensures x * n <= y * n
  {
  }

  lemma MulAssociates(a: int, b: int, c: int)
    ensures (a * b) * c == a * (b * c)
  {
  }

  lemma MulCommutes(a: int, b: int)
    ensures a * b == b * a
  {
  }

  /** Pulling a factor out of a nested product: x * ((k * a) * c) == k * (x * (a * c)). */
  lemma PullOutFirst(x: int, k: int, a: int, c: int)
    ensures x * ((k * a) * c) == k * (x * (a * c))
  {
  }

  /** Pulling a factor out of a nested product: x * (e * (m * d)) == m * (x * (e * d)). */
  lemma PullOutSecond(x: int, e: int, m: int, d: int)
    ensures x * (e * (m * d)) == m * (x * (e * d))
  {
  }

  lemma Distributes(a: int, b: int, c: int)
    ensures (a + b) * c == a * c + b * c
  {
  }
}
