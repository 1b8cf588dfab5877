/**
  `copy_if` written as a fold: the combine step takes the vector collected
  so far by value, appends the element when it passes a test, and returns
  the vector. The tests use it with "is odd" and "is a multiple of 3".
 */
module Collect {
  import opened Fold

  /** `val & 1` on a two's-complement `int` is the remainder of division by
      2 with the quotient rounded towards minus infinity, which is Dafny's `%`; so this holds exactly
      when the low bit is set, negative values included. */
  predicate IsOdd(val: int) {
    val % 2 == 1
  }

  /** `val % 3 == 0`: a zero remainder means the same under C++'s
      truncating `%` and Dafny's Euclidean one. */
  predicate IsMultipleOf3(val: int) {
    val % 3 == 0
  }

  /** One combine step: `prev.push_back(val)` when `keep(val)`, and `prev`
      as it was otherwise. */
  function CollectIf(keep: int -> bool, prev: seq<int>, val: int): seq<int> {
    if keep(val) then prev + [val] else prev
  }

  /** The combine lambda for a given test, as the value passed to accumulate. */
  function Collector(keep: int -> bool): (seq<int>, int) -> seq<int> {
    (prev, val) => CollectIf(keep, prev, val)
  }

  /** The sequence filter, as the reference the fold is compared with. */
  function Filter(xs: seq<int>, keep: int -> bool): seq<int> {
    if xs == [] then []
    else (if keep(xs[0]) then [xs[0]] else []) + Filter(xs[1..], keep)
  }

  /** Folding the collector over xs from `acc` appends to `acc` exactly the
      filtered sequence and nothing else. */
  lemma {:induction false} CollectFoldIsFilter(xs: seq<int>, acc: seq<int>, keep: int -> bool)
    ensures FoldLeft(xs, acc, Collector(keep)) == acc + Filter(xs, keep)
    decreases |xs|
  {
    if xs != [] {
      assert xs == [xs[0]] + xs[1..];
      FoldLeftCons(xs[0], xs[1..], acc, Collector(keep));
      var next := CollectIf(keep, acc, xs[0]);
      CollectFoldIsFilter(xs[1..], next, keep);
      assert next == acc + (if keep(xs[0]) then [xs[0]] else []);
    }
  }

  /** The filter keeps order: filtering a concatenation concatenates the
      filtered parts. */
  lemma {:induction false} FilterAppend(xs: seq<int>, ys: seq<int>, keep: int -> bool)
    ensures Filter(xs + ys, keep) == Filter(xs, keep) + Filter(ys, keep)
    decreases |xs|
  {
    if xs == [] {
      assert xs + ys == ys;
    } else {
      var head := if keep(xs[0]) then [xs[0]] else [];
      assert (xs + ys)[0] == xs[0];
      assert (xs + ys)[1..] == xs[1..] + ys;
      assert Filter(xs + ys, keep) == head + Filter(xs[1..] + ys, keep);
      FilterAppend(xs[1..], ys, keep);
      assert head + (Filter(xs[1..], keep) + Filter(ys, keep))
          == (head + Filter(xs[1..], keep)) + Filter(ys, keep);
    }
  }

  /** The filter keeps exactly the elements that pass, each as many times as
      it occurs, and nothing that fails. */
  lemma {:induction false} FilterCounts(xs: seq<int>, keep: int -> bool, v: int)
    ensures multiset(Filter(xs, keep))[v] == if keep(v) then multiset(xs)[v] else 0
    decreases |xs|
  {
    if xs != [] {
      FilterCounts(xs[1..], keep, v);
      assert xs == [xs[0]] + xs[1..];
    }
  }

  /** Membership form of the same fact. */
  lemma FilterMembership(xs: seq<int>, keep: int -> bool, v: int)
    ensures v in Filter(xs, keep) <==> v in xs && keep(v)
  {
    FilterCounts(xs, keep, v);
    assert v in Filter(xs, keep) <==> v in multiset(Filter(xs, keep));
    assert v in xs <==> v in multiset(xs);
  }
}
