/**
  The two numeric folds of the `basics` test: the default `+` from 0 and
  `std::multiplies<int>` from 1, over the vector 1, 2, ..., 10, with their
  closed forms and the bound showing that no `int` accumulator overflows.
 */
module Arithmetic {
  import opened Fold

  const INT_MIN: int := -0x8000_0000
  const INT_MAX: int := 0x7FFF_FFFF

  /** A value a 32-bit C++ `int` can hold. */
  predicate InInt(x: int) {
    INT_MIN <= x <= INT_MAX
  }

  /** The combine step `acc + x` that accumulate uses when no operation is given. */
  function Plus(acc: int, x: int): int {
    acc + x
  }

  /** The combine step of `std::multiplies<int>`. */
  function Times(acc: int, x: int): int {
    acc * x
  }

  /** The arithmetic sum, as the reference the sum fold is compared with. */
  function Sum(xs: seq<int>): int {
    if xs == [] then 0 else xs[0] + Sum(xs[1..])
  }

  /** The arithmetic product, as the reference the product fold is compared with. */
  function Product(xs: seq<int>): int {
    if xs == [] then 1 else xs[0] * Product(xs[1..])
  }

  /** The integers lo, lo + 1, ..., hi - 1. */
  function Range(lo: int, hi: int): (r: seq<int>)
    ensures |r| == if lo <= hi then hi - lo else 0
    ensures forall i :: 0 <= i < |r| ==> r[i] == lo + i
    decreases hi - lo
  {
    if hi <= lo then [] else Range(lo, hi - 1) + [hi - 1]
  }

  function Factorial(n: nat): nat {
    if n == 0 then 1 else n * Factorial(n - 1)
  }

  /** Folding with `+` from z adds the sum of the elements to z. */
  lemma {:induction false} SumFold(xs: seq<int>, z: int)
    ensures FoldLeft(xs, z, Plus) == z + Sum(xs)
    decreases |xs|
  {
    if xs != [] {
      assert xs == [xs[0]] + xs[1..];
      FoldLeftCons(xs[0], xs[1..], z, Plus);
      SumFold(xs[1..], z + xs[0]);
    }
  }

  /** Folding with `*` from z multiplies z by the product of the elements. */
  lemma {:induction false} ProductFold(xs: seq<int>, z: int)
    ensures FoldLeft(xs, z, Times) == z * Product(xs)
    decreases |xs|
  {
    if xs != [] {
      assert xs == [xs[0]] + xs[1..];
      FoldLeftCons(xs[0], xs[1..], z, Times);
      ProductFold(xs[1..], z * xs[0]);
      assert (z * xs[0]) * Product(xs[1..]) == z * (xs[0] * Product(xs[1..]));
    }
  }

  lemma {:induction false} SumSnoc(xs: seq<int>, x: int)
    ensures Sum(xs + [x]) == Sum(xs) + x
    decreases |xs|
  {
    if xs == [] {
      assert [] + [x] == [x];
    } else {
      assert (xs + [x])[1..] == xs[1..] + [x];
      SumSnoc(xs[1..], x);
    }
  }

  lemma {:induction false} ProductSnoc(xs: seq<int>, x: int)
    ensures Product(xs + [x]) == Product(xs) * x
    decreases |xs|
  {
    if xs == [] {
      assert [] + [x] == [x];
    } else {
      assert (xs + [x])[1..] == xs[1..] + [x];
      ProductSnoc(xs[1..], x);
      assert xs[0] * (Product(xs[1..]) * x) == (xs[0] * Product(xs[1..])) * x;
    }
  }

  /** Gauss: 1 + 2 + ... + n == n(n + 1)/2. */
  lemma {:induction false} SumOfRange(n: nat)
    ensures Sum(Range(1, n + 1)) == n * (n + 1) / 2
  {
    if n > 0 {
      SumOfRange(n - 1);
      SumSnoc(Range(1, n), n);
    }
  }

  /** 1 * 2 * ... * n == n!. */
  lemma {:induction false} ProductOfRange(n: nat)
    ensures Product(Range(1, n + 1)) == Factorial(n)
  {
    if n > 0 {
      ProductOfRange(n - 1);
      ProductSnoc(Range(1, n), n);
    }
  }

  lemma {:induction false} FactorialMonotone(m: nat, n: nat)
    requires m <= n
    ensures 1 <= Factorial(m) <= Factorial(n)
    decreases n
  {
    if m < n {
      FactorialMonotone(m, n - 1);
      assert Factorial(n - 1) <= n * Factorial(n - 1);
    } else if m > 0 {
      FactorialMonotone(m - 1, m - 1);
    }
  }

  /** Every accumulator that the sum and the product folds over 1, ..., 10
      pass through (the folds over the first k elements) fits in an `int`,
      so the `int` arithmetic of the source agrees with the integers. */
  lemma BasicsFitInInt(k: nat)
    requires k <= 10
    ensures FoldLeft(Range(1, k + 1), 0, Plus) == k * (k + 1) / 2
    ensures FoldLeft(Range(1, k + 1), 1, Times) == Factorial(k)
    ensures InInt(FoldLeft(Range(1, k + 1), 0, Plus))
    ensures InInt(FoldLeft(Range(1, k + 1), 1, Times))
  {
    SumFold(Range(1, k + 1), 0);
    SumOfRange(k);
    ProductFold(Range(1, k + 1), 1);
    ProductOfRange(k);
    FactorialMonotone(k, 10);
    assert Factorial(10) == 3628800;
    assert k * (k + 1) <= 110 by {
      assert k * (k + 1) <= 10 * (k + 1) <= 110;
    }
  }
}
