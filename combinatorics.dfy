/**
 * Integer counting functions: factorial, permutations, combinations,
 * arrangements and arrangements with repetition, each with its domain
 * check. `combinations` and `arrangements` are factorial quotients proved
 * equal to Pascal's rule and to the falling factorial; `permutations` is
 * proved equal to the falling factorial of n and n; `factorial` and
 * `arrangements_with_repetition` follow their recurrences.
 */
module Combinatorics {
  import opened Results
  import opened Arithmetic

  /** n! by its recurrence. */
  function Fact(n: nat): (r: nat)
    ensures r >= 1
  {
    if n == 0 then 1 else n * Fact(n - 1)
  }

  /** The number of k-element subsets of an n-element set, by Pascal's rule. */
  function Binomial(n: nat, k: nat): nat
  {
    if k == 0 then 1 else if n == 0 then 0 else Binomial(n - 1, k - 1) + Binomial(n - 1, k)
  }

  /** The falling factorial n * (n - 1) * ... * (n - k + 1): ordered choices of k from n. */
  function Falling(n: nat, k: nat): nat
    requires k <= n
  {
    if k == 0 then 1 else n * Falling(n - 1, k - 1)
  }

  /** n to the power k by its recurrence. */
  function Pow(n: nat, k: nat): nat
  {
    if k == 0 then 1 else n * Pow(n, k - 1)
  }

  /** Dividing an exact multiple gives back the other factor. */
  lemma DivExact(x: int, d: int, q: int)
    requires d > 0 && x == q * d
    ensures x / d == q
  {
    DivModUnique(x, d, q, 0);
  }

  /** There are no k-element subsets of a smaller set. */
  lemma {:induction false} BinomialAbove(n: nat, k: nat)
    requires k > n
    ensures Binomial(n, k) == 0
  {
    if n > 0 {
      BinomialAbove(n - 1, k - 1);
      BinomialAbove(n - 1, k);
    }
  }

  /** Pascal's numbers are the factorial quotient: C(n, k) * k! * (n - k)! == n!. */
  lemma {:induction false} BinomialFactorials(n: nat, k: nat)
    requires k <= n
    ensures Binomial(n, k) * (Fact(k) * Fact(n - k)) == Fact(n)
  {
    if k > 0 {
      var f, fk, c := Fact(n - 1), Fact(k), Fact(n - k);
      var b1, b2 := Binomial(n - 1, k - 1), Binomial(n - 1, k);
      assert Binomial(n, k) == b1 + b2;
      // The first term of Pascal's rule contributes k * (n - 1)!.
      BinomialFactorials(n - 1, k - 1);
      assert (n - 1) - (k - 1) == n - k;
      assert b1 * (Fact(k - 1) * c) == f;
      assert fk == k * Fact(k - 1);
      PullOutFirst(b1, k, Fact(k - 1), c);
      assert b1 * (fk * c) == k * f;
      // The second term contributes (n - k) * (n - 1)!.
      if k < n {
        BinomialFactorials(n - 1, k);
        assert c == (n - k) * Fact(n - 1 - k);
        PullOutSecond(b2, fk, n - k, Fact(n - 1 - k));
      } else {
        BinomialAbove(n - 1, k);
      }
      assert b2 * (fk * c) == (n - k) * f;
      Distributes(b1, b2, fk * c);
      Distributes(k, n - k, f);
    }
  }

  /** The falling factorial is the factorial quotient: A(n, k) * (n - k)! == n!. */
  lemma {:induction false} FallingFactorial(n: nat, k: nat)
    requires k <= n
    ensures Falling(n, k) * Fact(n - k) == Fact(n)
  {
    if k > 0 {
      FallingFactorial(n - 1, k - 1);
      assert (n - 1) - (k - 1) == n - k;
      MulAssociates(n, Falling(n - 1, k - 1), Fact(n - k));
    }
  }

  /** `factorial(n)`: n! for n >= 0; a negative n raises ValueError. */
  function Factorial(n: int): (r: Result<nat>)
    ensures r.Ok? <==> n >= 0
    ensures r.Err? ==> r.error == ValueError
    ensures r.Ok? && n == 0 ==> r.value == 1
    ensures r.Ok? && n > 0 ==> r.value == n * Fact(n - 1)
  {
    if n < 0 then Err(ValueError) else Ok(Fact(n))
  }

  /** `permutations(n)`: the orderings of n items, n!; a negative n raises ValueError. */
  function Permutations(n: int): (r: Result<nat>)
    ensures r.Ok? <==> n >= 0
    ensures r.Err? ==> r.error == ValueError
    ensures r.Ok? ==> r.value == Falling(n, n)
  {
    if n < 0 then Err(ValueError)
    else
      FallingFactorial(n, n);
      Ok(Fact(n))
  }

  /** `combinations(n, k)`: n! / (k! (n - k)!) for 0 <= k <= n, else ValueError. */
  function Combinations(n: int, k: int): (r: Result<nat>)
    ensures r.Ok? <==> 0 <= k <= n
    ensures r.Err? ==> r.error == ValueError
    ensures r.Ok? ==> r.value == Binomial(n, k)
  {
    if k < 0 || k > n then Err(ValueError)
    else
      BinomialFactorials(n, k);
      DivExact(Fact(n), Fact(k) * Fact(n - k), Binomial(n, k));
      Ok(Fact(n) / (Fact(k) * Fact(n - k)))
  }

  /** `arrangements(n, k)`: n! / (n - k)! for 0 <= k <= n, else ValueError. */
  function Arrangements(n: int, k: int): (r: Result<nat>)
    ensures r.Ok? <==> 0 <= k <= n
    ensures r.Err? ==> r.error == ValueError
    ensures r.Ok? ==> r.value == Falling(n, k)
  {
    if k < 0 || k > n then Err(ValueError)
    else
      FallingFactorial(n, k);
      DivExact(Fact(n), Fact(n - k), Falling(n, k));
      Ok(Fact(n) / Fact(n - k))
  }

  /** `arrangements_with_repetition(n, k)`: n ** k for n, k >= 0; a negative n or k raises ValueError. */
  function ArrangementsWithRepetition(n: int, k: int): (r: Result<nat>)
    ensures r.Ok? <==> n >= 0 && k >= 0
    ensures r.Err? ==> r.error == ValueError
    ensures r.Ok? && k == 0 ==> r.value == 1
    ensures r.Ok? && k > 0 ==> r.value == n * ArrangementsWithRepetition(n, k - 1).value
  {
    if n < 0 || k < 0 then Err(ValueError) else Ok(Pow(n, k))
  }

  /** Choosing nothing, or everything, can be done one way: C(n, 0) == C(n, n) == 1. */
  lemma {:induction false} CombinationsEdges(n: nat)
    ensures Combinations(n, 0) == Ok(1)
    ensures Combinations(n, n) == Ok(1)
  {
    if n > 0 {
      BinomialAbove(n - 1, n);
      CombinationsEdges(n - 1);
    }
  }

  /** Choosing k is choosing the n - k left behind: C(n, k) == C(n, n - k). */
  lemma CombinationsSymmetric(n: nat, k: nat)
    requires k <= n
    ensures Combinations(n, k) == Combinations(n, n - k)
  {
    var fk, fl := Fact(k), Fact(n - k);
    BinomialFactorials(n, k);
    BinomialFactorials(n, n - k);
    assert n - (n - k) == k;
    MulCommutes(fl, fk);
    Cancel(Binomial(n, k), Binomial(n, n - k), fk * fl);
  }

  /** Ordered choices are unordered ones times their orderings: A(n, k) == C(n, k) * k!. */
  lemma ArrangementsAreOrderedCombinations(n: nat, k: nat)
    requires k <= n
    ensures Arrangements(n, k).value == Combinations(n, k).value * Factorial(k).value
  {
    BinomialFactorials(n, k);
    FallingFactorial(n, k);
    MulAssociates(Binomial(n, k), Fact(k), Fact(n - k));
    Cancel(Binomial(n, k) * Fact(k), Falling(n, k), Fact(n - k));
  }

  /** Arranging all n items is permuting them: A(n, n) == n! and A(n, 0) == 1. */
  lemma ArrangementsEdges(n: nat)
    ensures Arrangements(n, n) == Factorial(n) == Permutations(n)
    ensures Arrangements(n, 0) == Ok(1)
  {
    FallingFactorial(n, n);
  }

  lemma {:induction false} PowMonotone(m: nat, n: nat, k: nat)
    requires m <= n
    ensures Pow(m, k) <= Pow(n, k)
  {
    if k > 0 {
      PowMonotone(m, n, k - 1);
      MulMonotone(Pow(m, k - 1), m, n);
      MulCommutes(Pow(m, k - 1), m);
      MulCommutes(Pow(m, k - 1), n);
      MulMonotone(n, Pow(m, k - 1), Pow(n, k - 1));
    }
  }

  /** Allowing repetition never gives fewer arrangements: A(n, k) <= n ** k. */
  lemma {:induction false} ArrangementsAtMostWithRepetition(n: nat, k: nat)
    requires k <= n
    ensures Arrangements(n, k).value <= ArrangementsWithRepetition(n, k).value
  {
    if k > 0 {
      ArrangementsAtMostWithRepetition(n - 1, k - 1);
      PowMonotone(n - 1, n, k - 1);
      MulMonotone(n, Falling(n - 1, k - 1), Pow(n, k - 1));
    }
  }

  /** The values the library's tests expect. */
  lemma CountingExamples()
    ensures Factorial(0) == Ok(1) && Factorial(1) == Ok(1) && Factorial(5) == Ok(120)
    ensures Permutations(0) == Ok(1) && Permutations(4) == Ok(24) && Permutations(-3) == Err(ValueError)
    ensures Combinations(5, 2) == Ok(10) && Combinations(6, 0) == Ok(1)
    ensures Combinations(5, 7) == Err(ValueError)
    ensures Arrangements(5, 2) == Ok(20) && Arrangements(5, 0) == Ok(1)
    ensures Arrangements(5, 5) == Factorial(5) && Arrangements(3, 5) == Err(ValueError)
    ensures ArrangementsWithRepetition(3, 2) == Ok(9) && ArrangementsWithRepetition(5, 0) == Ok(1)
    ensures ArrangementsWithRepetition(-1, 2) == Err(ValueError)
    ensures ArrangementsWithRepetition(3, -2) == Err(ValueError)
  {
    assert Fact(5) == 120;
    assert Falling(4, 4) == 24;
    assert Binomial(5, 2) == 10;
    assert Falling(5, 2) == 20;
    ArrangementsEdges(5);
    assert Pow(3, 2) == 9;
  }
}
