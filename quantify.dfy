/**
  `any_of` and `all_of` written as folds over a `bool` accumulator:
  `prev |= (val & 1)` from `false` and `prev &= (val & 1)` from `true`.
 */
module Quantify {
  import opened Fold
  import opened Collect

  /** `prev |= (val & 1)`: the accumulator becomes true at an odd value and
      stays as it was otherwise. */
  function OrOdd(prev: bool, val: int): bool {
    prev || IsOdd(val)
  }

  /** `prev &= (val & 1)`: the accumulator becomes false at an even value and
      stays as it was otherwise. */
  function AndOdd(prev: bool, val: int): bool {
    prev && IsOdd(val)
  }

  predicate SomeOdd(xs: seq<int>) {
    exists i :: 0 <= i < |xs| && IsOdd(xs[i])
  }

  predicate AllOdd(xs: seq<int>) {
    forall i :: 0 <= i < |xs| ==> IsOdd(xs[i])
  }

  /** The OR-fold from b is true exactly when b is, or some element is odd. */
  lemma {:induction false} OrFoldIsSomeOdd(xs: seq<int>, b: bool)
    ensures FoldLeft(xs, b, OrOdd) <==> b || SomeOdd(xs)
    decreases |xs|
  {
    if xs != [] {
      var front := xs[..|xs| - 1];
      OrFoldIsSomeOdd(front, b);
      if SomeOdd(xs) && !IsOdd(xs[|xs| - 1]) {
        var i :| 0 <= i < |xs| && IsOdd(xs[i]);
        assert front[i] == xs[i];
      }
    }
  }

  /** The AND-fold from b is true exactly when b is, and every element is odd. */
  lemma {:induction false} AndFoldIsAllOdd(xs: seq<int>, b: bool)
    ensures FoldLeft(xs, b, AndOdd) <==> b && AllOdd(xs)
    decreases |xs|
  {
    if xs != [] {
      var front := xs[..|xs| - 1];
      AndFoldIsAllOdd(front, b);
      assert AllOdd(xs) ==> AllOdd(front) by {
        if AllOdd(xs) {
          forall i | 0 <= i < |front| ensures IsOdd(front[i]) {
            assert front[i] == xs[i];
          }
        }
      }
    }
  }

  /** An AND accumulator that is false stays false whatever follows. */
  lemma {:induction false} AndFoldFromFalse(xs: seq<int>)
    ensures !FoldLeft(xs, false, AndOdd)
    decreases |xs|
  {
    if xs != [] {
      AndFoldFromFalse(xs[..|xs| - 1]);
    }
  }

  /** An OR accumulator that is true stays true whatever follows. */
  lemma {:induction false} OrFoldFromTrue(xs: seq<int>)
    ensures FoldLeft(xs, true, OrOdd)
    decreases |xs|
  {
    if xs != [] {
      OrFoldFromTrue(xs[..|xs| - 1]);
    }
  }

  /** Once the all-of accumulator has become false after the first k
      elements, it is false after every later element as well. */
  lemma AllOfStaysFalse(xs: seq<int>, k: nat, j: nat)
    requires k <= j <= |xs|
    requires !FoldLeft(xs[..k], true, AndOdd)
    ensures !FoldLeft(xs[..j], true, AndOdd)
  {
    assert xs[..j] == xs[..k] + xs[k..j];
    FoldLeftAppend(xs[..k], xs[k..j], true, AndOdd);
    AndFoldFromFalse(xs[k..j]);
  }

  /** Once the any-of accumulator has become true after the first k
      elements, it is true after every later element as well. */
  lemma AnyOfStaysTrue(xs: seq<int>, k: nat, j: nat)
    requires k <= j <= |xs|
    requires FoldLeft(xs[..k], false, OrOdd)
    ensures FoldLeft(xs[..j], false, OrOdd)
  {
    assert xs[..j] == xs[..k] + xs[k..j];
    FoldLeftAppend(xs[..k], xs[k..j], false, OrOdd);
    OrFoldFromTrue(xs[k..j]);
  }
}
