/**
  The `dash_fold` combine of the `basics` test, `a + '-' + to_string(b)`,
  folded front to back from the first element and, through reverse
  iterators, back to front from the last element.
 */
module DashJoin {
  import opened Fold
  import opened Decimal

  /** The `dash_fold` lambda: append a dash and the rendering of b. */
  function DashFold(a: string, b: int): string {
    a + "-" + ToString(b)
  }

  /** One `dash_fold` step keeps the accumulator as its prefix and appends a
      dash and a decimal integer that reads back to b. */
  lemma DashFoldAppends(a: string, b: int)
    ensures |DashFold(a, b)| >= |a| + 2 && DashFold(a, b)[..|a|] == a && DashFold(a, b)[|a|] == '-'
    ensures IsDecimal(DashFold(a, b)[|a| + 1..]) && ParseInt(DashFold(a, b)[|a| + 1..]) == b
  {
    ParseIntToString(b);
    assert DashFold(a, b)[|a| + 1..] == ToString(b);
  }

  /** The rendering of every element, in order. */
  function Renderings(xs: seq<int>): seq<string> {
    seq(|xs|, i requires 0 <= i < |xs| => ToString(xs[i]))
  }

  /** The parts with `sep` between each neighbouring pair, as the reference
      the dash fold is compared with. */
  function Join(parts: seq<string>, sep: string): string
    decreases |parts|
  {
    if parts == [] then ""
    else if |parts| == 1 then parts[0]
    else parts[0] + sep + Join(parts[1..], sep)
  }

  /** Joining two non-empty runs of parts puts one separator between them. */
  lemma {:induction false} JoinAppend(a: seq<string>, b: seq<string>, sep: string)
    requires a != [] && b != []
    ensures Join(a + b, sep) == Join(a, sep) + sep + Join(b, sep)
    decreases |a|
  {
    if |a| == 1 {
      assert (a + b)[1..] == b;
    } else {
      assert (a + b)[1..] == a[1..] + b;
      JoinAppend(a[1..], b, sep);
    }
  }

  /** One more part at the back adds a separator and the part. */
  lemma JoinSnoc(parts: seq<string>, part: string, sep: string)
    requires parts != []
    ensures Join(parts + [part], sep) == Join(parts, sep) + sep + part
  {
    JoinAppend(parts, [part], sep);
  }

  /** Five parts joined: the definition of Join unrolled. */
  lemma JoinFive(parts: seq<string>, sep: string)
    requires |parts| == 5
    ensures Join(parts, sep) == parts[0] + sep + (parts[1] + sep + (parts[2] + sep + (parts[3] + sep + parts[4])))
  {
    assert parts[3..][1..] == parts[4..] == [parts[4]];
    assert Join(parts[4..], sep) == parts[4];
    assert Join(parts[3..], sep) == parts[3] + sep + parts[4];
    assert parts[2..][1..] == parts[3..];
    assert Join(parts[2..], sep) == parts[2] + sep + (parts[3] + sep + parts[4]);
    assert parts[1..][1..] == parts[2..];
    assert Join(parts[1..], sep) == parts[1] + sep + (parts[2] + sep + (parts[3] + sep + parts[4]));
  }

  /** Seeding with the first element's rendering and folding `dash_fold` over
      the rest joins all the renderings with dashes, in order. The first
      element has to exist: the seed reads it. */
  lemma {:induction false} DashFoldIsJoin(xs: seq<int>)
    requires xs != []
    ensures FoldLeft(xs[1..], ToString(xs[0]), DashFold) == Join(Renderings(xs), "-")
    decreases |xs|
  {
    if |xs| > 1 {
      var front, x := xs[..|xs| - 1], xs[|xs| - 1];
      var seed := ToString(xs[0]);
      assert front[0] == xs[0];
      DashFoldIsJoin(front);
      var acc := FoldLeft(front[1..], seed, DashFold);
      assert acc == Join(Renderings(front), "-");
      assert xs[1..] == front[1..] + [x];
      FoldLeftSnoc(front[1..], x, seed, DashFold);
      assert FoldLeft(xs[1..], seed, DashFold) == DashFold(acc, x);
      RenderingsSnoc(xs);
      JoinDashSnoc(Renderings(front), x);
    }
  }

  /** One more rendering at the back of a dash join is one `dash_fold` step. */
  lemma JoinDashSnoc(parts: seq<string>, x: int)
    requires parts != []
    ensures Join(parts + [ToString(x)], "-") == DashFold(Join(parts, "-"), x)
  {
    JoinSnoc(parts, ToString(x), "-");
  }

  lemma RenderingsSnoc(xs: seq<int>)
    requires xs != []
    ensures Renderings(xs) == Renderings(xs[..|xs| - 1]) + [ToString(xs[|xs| - 1])]
  {
  }

  /** Rendering commutes with reading back to front. */
  lemma {:induction false} RenderingsReversed(xs: seq<int>)
    ensures Renderings(Reversed(xs)) == Reversed(Renderings(xs))
    decreases |xs|
  {
    if xs != [] {
      RenderingsReversed(xs[1..]);
      assert Renderings(xs)[1..] == Renderings(xs[1..]);
      assert Renderings(Reversed(xs[1..]) + [xs[0]]) == Renderings(Reversed(xs[1..])) + [ToString(xs[0])];
    }
  }

  /** The "right fold": starting at the last element's rendering and folding
      over the reverse iterators from the second-to-last element is the
      same fold applied to the reversed sequence, so it joins the
      renderings with dashes in reverse order. */
  lemma RightDashFoldIsReversedJoin(xs: seq<int>)
    requires xs != []
    ensures FoldLeft(Reversed(xs)[1..], ToString(xs[|xs| - 1]), DashFold)
         == Join(Reversed(Renderings(xs)), "-")
  {
    var r := Reversed(xs);
    ReversedAt(xs, 0);
    DashFoldIsJoin(r);
    assert FoldLeft(r[1..], ToString(r[0]), DashFold) == Join(Renderings(r), "-");
    RenderingsReversed(xs);
  }
}
