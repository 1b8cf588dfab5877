/**
  The five accumulate tests, each as a method that runs the accumulate loop
  on the test's own vector and combine step and promises the value the
  test checks (for `basics`, the values it prints).
 */
module AccumulateTest {
  import opened Fold
  import opened Arithmetic
  import opened Decimal
  import opened DashJoin
  import opened Collect
  import opened Quantify

  /** `basics`: the sum, the product, the dash-joined string and its
      right-folded counterpart over 1, 2, ..., 10. */
  method Basics() returns (sum: int, product: int, s: string, rs: string)
    ensures sum == 55 && product == 3628800
    ensures forall k :: 0 <= k <= 10 ==>
      InInt(FoldLeft(Range(1, 11)[..k], 0, Plus)) && InInt(FoldLeft(Range(1, 11)[..k], 1, Times))
    ensures s == "1-2-3-4-5-6-7-8-9-10"
    ensures rs == "10-9-8-7-6-5-4-3-2-1"
  {
    var v := [1, 2, 3, 4, 5, 6, 7, 8, 9, 10];
    assert v == Range(1, 11);
    sum := Accumulate(v, 0, |v|, 0, Plus);
    product := Accumulate(v, 0, |v|, 1, Times);
    s := Accumulate(v, 1, |v|, ToString(v[0]), DashFold);
    var rv := Reversed(v);
    rs := Accumulate(rv, 1, |rv|, ToString(v[|v| - 1]), DashFold);
    SumAndProductOneToTen(v);
    DashFoldOneToTen(v);
    RightDashFoldOneToTen(v);
  }

  /** The two numeric folds of `basics`: 55 and 10!, with every accumulator
      on the way within `int`. */
  lemma SumAndProductOneToTen(v: seq<int>)
    requires v == [1, 2, 3, 4, 5, 6, 7, 8, 9, 10]
    ensures FoldLeft(v[0..|v|], 0, Plus) == 55
    ensures FoldLeft(v[0..|v|], 1, Times) == 3628800
    ensures forall k :: 0 <= k <= |v| ==>
      InInt(FoldLeft(v[..k], 0, Plus)) && InInt(FoldLeft(v[..k], 1, Times))
  {
    assert v[0..|v|] == v == Range(1, 11);
    BasicsFitInInt(10);
    assert Factorial(10) == 3628800;
    forall k | 0 <= k <= |v|
      ensures InInt(FoldLeft(v[..k], 0, Plus)) && InInt(FoldLeft(v[..k], 1, Times))
    {
      assert v[..k] == Range(1, k + 1);
      BasicsFitInInt(k);
    }
  }

  /** The renderings of 1, ..., 10. */
  lemma RenderingsOneToTen(v: seq<int>)
    requires v == [1, 2, 3, 4, 5, 6, 7, 8, 9, 10]
    ensures Renderings(v) == ["1", "2", "3", "4", "5", "6", "7", "8", "9", "10"]
  {
    assert ToString(10) == "10" by {
      assert NatToString(10) == NatToString(1) + [DigitChar(0)];
    }
  }

  /** Ten renderings joined with dashes, front to back. */
  lemma JoinOneToTen(parts: seq<string>)
    requires parts == ["1", "2", "3", "4", "5", "6", "7", "8", "9", "10"]
    ensures Join(parts, "-") == "1-2-3-4-5-6-7-8-9-10"
  {
    var lo, hi := parts[..5], parts[5..];
    assert parts == lo + hi;
    JoinAppend(lo, hi, "-");
    JoinFive(lo, "-");
    JoinFive(hi, "-");
    assert lo == ["1", "2", "3", "4", "5"];
    assert "1" + "-" + ("2" + "-" + ("3" + "-" + ("4" + "-" + "5"))) == "1-2-3-4-5";
    assert hi == ["6", "7", "8", "9", "10"];
    assert "6" + "-" + ("7" + "-" + ("8" + "-" + ("9" + "-" + "10"))) == "6-7-8-9-10";
    assert "1-2-3-4-5" + "-" + "6-7-8-9-10" == "1-2-3-4-5-6-7-8-9-10";
  }

  /** Ten renderings joined with dashes, back to front. */
  lemma JoinTenToOne(parts: seq<string>)
    requires parts == ["10", "9", "8", "7", "6", "5", "4", "3", "2", "1"]
    ensures Join(parts, "-") == "10-9-8-7-6-5-4-3-2-1"
  {
    var hi, lo := parts[..5], parts[5..];
    assert parts == hi + lo;
    JoinAppend(hi, lo, "-");
    JoinFive(hi, "-");
    JoinFive(lo, "-");
    assert hi == ["10", "9", "8", "7", "6"];
    assert "10" + "-" + ("9" + "-" + ("8" + "-" + ("7" + "-" + "6"))) == "10-9-8-7-6";
    assert lo == ["5", "4", "3", "2", "1"];
    assert "5" + "-" + ("4" + "-" + ("3" + "-" + ("2" + "-" + "1"))) == "5-4-3-2-1";
    assert "10-9-8-7-6" + "-" + "5-4-3-2-1" == "10-9-8-7-6-5-4-3-2-1";
  }

  /** `dash_fold` from "1" over 2, ..., 10 gives "1-2-...-10". */
  lemma DashFoldOneToTen(v: seq<int>)
    requires v == [1, 2, 3, 4, 5, 6, 7, 8, 9, 10]
    ensures FoldLeft(v[1..|v|], ToString(v[0]), DashFold) == "1-2-3-4-5-6-7-8-9-10"
  {
    assert v[1..|v|] == v[1..];
    DashFoldIsJoin(v);
    RenderingsOneToTen(v);
    JoinOneToTen(Renderings(v));
  }

  /** `dash_fold` from "10" over the reverse iterators from 9 down to 1 gives
      "10-9-...-1": the same fold as front to back, in the other order. */
  lemma RightDashFoldOneToTen(v: seq<int>)
    requires v == [1, 2, 3, 4, 5, 6, 7, 8, 9, 10]
    ensures FoldLeft(Reversed(v)[1..|v|], ToString(v[|v| - 1]), DashFold) == "10-9-8-7-6-5-4-3-2-1"
  {
    assert Reversed(v)[1..|v|] == Reversed(v)[1..];
    RightDashFoldIsReversedJoin(v);
    RenderingsOneToTen(v);
    ReversedTenToOne(Renderings(v));
    JoinTenToOne(Reversed(Renderings(v)));
  }

  lemma ReversedTenToOne(parts: seq<string>)
    requires parts == ["1", "2", "3", "4", "5", "6", "7", "8", "9", "10"]
    ensures Reversed(parts) == ["10", "9", "8", "7", "6", "5", "4", "3", "2", "1"]
  {
    forall k | 0 <= k < 10
      ensures Reversed(parts)[k] == parts[9 - k]
    {
      ReversedAt(parts, k);
    }
  }

  /** `fold_basic_test`: collecting the odd values of 1, ..., 8 gives 1 3 5 7. */
  method FoldBasicTest() returns (val: seq<int>)
    ensures val == [1, 3, 5, 7]
  {
    var pool := [1, 2, 3, 4, 5, 6, 7, 8];
    val := Accumulate(pool, 0, |pool|, [], Collector(IsOdd));
    assert pool[0..|pool|] == pool;
    OddsOfOneToEight(pool);
  }

  lemma OddsOfOneToEight(pool: seq<int>)
    requires pool == [1, 2, 3, 4, 5, 6, 7, 8]
    ensures FoldLeft(pool, [], Collector(IsOdd)) == [1, 3, 5, 7]
  {
    CollectFoldIsFilter(pool, [], IsOdd);
    assert Filter([1, 2, 3, 4, 5, 6, 7, 8], IsOdd) == [1, 3, 5, 7];
  }

  /** `impl_copy_if`: collecting the multiples of 3 of 1, ..., 9 gives 3 6 9. */
  method ImplCopyIf() returns (res: seq<int>)
    ensures res == [3, 6, 9]
  {
    var pool := [1, 2, 3, 4, 5, 6, 7, 8, 9];
    res := Accumulate(pool, 0, |pool|, [], Collector(IsMultipleOf3));
    assert pool[0..|pool|] == pool;
    MultiplesOf3OfOneToNine(pool);
  }

  lemma MultiplesOf3OfOneToNine(pool: seq<int>)
    requires pool == [1, 2, 3, 4, 5, 6, 7, 8, 9]
    ensures FoldLeft(pool, [], Collector(IsMultipleOf3)) == [3, 6, 9]
  {
    CollectFoldIsFilter(pool, [], IsMultipleOf3);
    assert Filter([1, 2, 3, 4, 5, 6, 7, 8, 9], IsMultipleOf3) == [3, 6, 9];
  }

  /** `impl_any_of`: 1, ..., 9 has an odd value. */
  method ImplAnyOf() returns (hasOdd: bool)
    ensures hasOdd
  {
    var pool := [1, 2, 3, 4, 5, 6, 7, 8, 9];
    hasOdd := Accumulate(pool, 0, |pool|, false, OrOdd);
    assert pool[0..|pool|] == pool;
    OrFoldIsSomeOdd(pool, false);
    assert IsOdd(pool[0]);
  }

  /** `impl_all_of`: every value of 1, 3, 5, 7, 9 is odd, and appending 10
      makes the all-of fold false. */
  method ImplAllOf() returns (res1: bool, res2: bool)
    ensures res1
    ensures !res2
  {
    var pool := [1, 3, 5, 7, 9];
    res1 := Accumulate(pool, 0, |pool|, true, AndOdd);
    assert pool[0..|pool|] == pool;
    AndFoldIsAllOdd(pool, true);

    var pool2 := [1, 3, 5, 7, 9, 10];
    res2 := Accumulate(pool2, 0, |pool2|, true, AndOdd);
    assert pool2[0..|pool2|] == pool2;
    AndFoldIsAllOdd(pool2, true);
    assert !IsOdd(pool2[5]);
  }
}
