/**
  The left fold that `std::accumulate` performs over an iterator range
  [first, last): the accumulator starts at `init` and, for each element in
  order, becomes `op(acc, element)`; the last accumulator is the result.
 */
module Fold {

  /** The fold as a specification: acc_0 = init, acc_{i+1} = op(acc_i, xs[i]),
      and the result is acc_|xs|. It peels off the LAST element, which is
      the step the accumulate loop performs most recently. */
  function FoldLeft<T, R>(xs: seq<T>, init: R, op: (R, T) -> R): R
    decreases |xs|
  {
    if xs == [] then init else op(FoldLeft(xs[..|xs| - 1], init, op), xs[|xs| - 1])
  }

  /** One more element at the back is one more application of `op`. */
  lemma FoldLeftSnoc<T, R>(xs: seq<T>, x: T, init: R, op: (R, T) -> R)
    ensures FoldLeft(xs + [x], init, op) == op(FoldLeft(xs, init, op), x)
  {
    assert (xs + [x])[..|xs|] == xs;
  }

  /** `FoldLeftSnoc` on a slice of a range: the accumulator after position i
      is `op` of the accumulator before it and the element at i. Stated on
      slices so that the accumulate loop's proof needs no sequence algebra. */
  lemma FoldLeftStep<T, R>(xs: seq<T>, first: nat, i: nat, init: R, op: (R, T) -> R)
    requires first <= i < |xs|
    ensures FoldLeft(xs[first..i + 1], init, op) == op(FoldLeft(xs[first..i], init, op), xs[i])
  {
    assert xs[first..i + 1] == xs[first..i] + [xs[i]];
    FoldLeftSnoc(xs[first..i], xs[i], init, op);
  }

  /** Folding a concatenation folds the second part starting from the
      accumulator the first part left behind: the accumulator after element
      i depends only on init and the elements before it. */
  lemma {:induction false} FoldLeftAppend<T, R>(xs: seq<T>, ys: seq<T>, init: R, op: (R, T) -> R)
    ensures FoldLeft(xs + ys, init, op) == FoldLeft(ys, FoldLeft(xs, init, op), op)
    decreases |ys|
  {
    if ys == [] {
      assert xs + ys == xs;
    } else {
      var front, y := ys[..|ys| - 1], ys[|ys| - 1];
      assert ys == front + [y];
      assert xs + ys == (xs + front) + [y];
      FoldLeftSnoc(xs + front, y, init, op);
      FoldLeftAppend(xs, front, init, op);
      FoldLeftSnoc(front, y, FoldLeft(xs, init, op), op);
    }
  }

  /** The front-to-back reading of the fold: the first step combines `init`
      with the first element, and the rest is folded from there. */
  lemma FoldLeftCons<T, R>(x: T, xs: seq<T>, init: R, op: (R, T) -> R)
    ensures FoldLeft([x] + xs, init, op) == FoldLeft(xs, op(init, x), op)
  {
    FoldLeftAppend([x], xs, init, op);
    assert [x][..0] == [];
  }

  /** The accumulate loop: walk [first, last) once, overwriting the one
      accumulator variable with `op(acc, xs[i])` at each position. A valid
      iterator range is the only demand on the caller. */
  method Accumulate<T, R>(xs: seq<T>, first: nat, last: nat, init: R, op: (R, T) -> R) returns (acc: R)
    requires first <= last <= |xs|
    ensures acc == FoldLeft(xs[first..last], init, op)
    ensures first == last ==> acc == init
  {
    acc := init;
    var i := first;
    while i != last
      invariant first <= i <= last
      invariant acc == FoldLeft(xs[first..i], init, op)
      decreases last - i
    {
      FoldLeftStep(xs, first, i, init, op);
      acc := op(acc, xs[i]);
      i := i + 1;
    }
  }

  /** A combine step that ignores the element leaves the seed as it was,
      whatever the range. */
  lemma {:induction false} FoldLeftIgnore<T, R>(xs: seq<T>, z: R)
    ensures FoldLeft(xs, z, (a: R, _: T) => a) == z
    decreases |xs|
  {
    if xs != [] {
      FoldLeftIgnore(xs[..|xs| - 1], z);
    }
  }

  /** The sequence read back to front, the range [rbegin, rend). */
  function Reversed<T>(xs: seq<T>): (r: seq<T>)
    ensures |r| == |xs|
  {
    if xs == [] then [] else Reversed(xs[1..]) + [xs[0]]
  }

  /** Position k of the reversed sequence holds position |xs| - 1 - k. */
  lemma {:induction false} ReversedAt<T>(xs: seq<T>, k: nat)
    requires k < |xs|
    ensures Reversed(xs)[k] == xs[|xs| - 1 - k]
  {
    if k < |xs| - 1 {
      ReversedAt(xs[1..], k);
    }
  }

  /** A right fold: the first element is combined with the fold of the rest. */
  function FoldRight<T, R>(xs: seq<T>, init: R, op: (T, R) -> R): R
    decreases |xs|
  {
    if xs == [] then init else op(xs[0], FoldRight(xs[1..], init, op))
  }

  /** Folding the reversed sequence from the left is the right fold of the
      sequence with the arguments of `op` swapped: a "right fold using
      reverse iterators". */
  lemma {:induction false} FoldLeftReversed<T, R>(xs: seq<T>, init: R, op: (R, T) -> R)
    ensures FoldLeft(Reversed(xs), init, op) == FoldRight(xs, init, (x, a) => op(a, x))
    decreases |xs|
  {
    if xs != [] {
      FoldLeftReversed(xs[1..], init, op);
      FoldLeftSnoc(Reversed(xs[1..]), xs[0], init, op);
    }
  }
}
