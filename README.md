# Folds with `std::accumulate`, modelled in Dafny

The repository's accumulate tests exercise one primitive: `std::accumulate`
as a left fold. The accumulator starts at `init`. For each element of an
iterator range, in order, it becomes `op(acc, element)`. The last
accumulator is the result. The tests instantiate this fold with six
combine steps, two from the library and four written as lambdas:

- the library's steps: `std::accumulate`'s default `+` from 0 and the
  `std::multiplies<int>` functor from 1, both over 1..10;
- the lambda `dash_fold`, a string join, seeded with the first element and folded
  front to back, and seeded with the last element and folded over reverse
  iterators;
- a "collect if" step that appends odd values (or multiples of 3) to a
  vector taken by value;
- an OR-fold from `false` (`any_of`) and an AND-fold from `true` (`all_of`).

The model has these parts:

- `fold.dfy` (module `Fold`): `FoldLeft`, the specification of the fold;
  `Accumulate`, the loop over `[first, last)` proved equal to it; the
  lemmas that split a fold (`FoldLeftAppend`, `FoldLeftCons`); the fold of
  a step that ignores its element; and
  `Reversed` with the right-fold reading of a fold over reverse iterators.
- `arithmetic.dfy` (module `Arithmetic`): the sum and product steps against
  the arithmetic sum and product, Gauss's formula, 10!, and the bound that
  keeps every accumulator within a 32-bit `int`.
- `decimal.dfy` (module `Decimal`): `std::to_string` on an `int` as a
  decimal rendering, with a parser that reads it back for every `int`.
- `dash_join.dfy` (module `DashJoin`): `dash_fold`, and both of its folds
  against a join of the renderings with dashes.
- `collect.dfy` (module `Collect`): the copy-if step against the sequence
  filter.
- `quantify.dfy` (module `Quantify`): the OR and AND steps against
  "some element is odd" and "every element is odd". Once the OR accumulator
  is true, or the AND accumulator is false, it stays that way.
- `bits.dfy` (module `Bits`): the C++ operations inside those steps, namely
  `val & 1` on a 32-bit two's-complement `int`, the truncating `%`, and
  `|=` / `&=` on a `bool`. Each is proved equal to the integer predicate
  the other modules use.
- `accumulate_test.dfy` (module `AccumulateTest`): one method per test. Each
  runs `Accumulate` on the test's own vector and combine step, and promises
  the value the test checks (for `basics`, the values it prints).

The collect, any-of and all-of steps test `val & 1`. On a two's-complement
`int` the low bit is the remainder of division by 2 with the quotient rounded
towards minus infinity.
That is Dafny's `%`, so `IsOdd` is `val % 2 == 1` for negative values too
(`Bits.IsOddLowBit`). The test `val % 3 == 0` asks only whether the
remainder is zero. C++'s truncating `%` and Dafny's Euclidean `%` agree on
that (`Bits.IsMultipleOf3TruncRem`).

## Model

| member | source | states |
|---|---|---|
| `Fold.FoldLeft` | algorithms/accumulate_test.cc:10-12 | the fold itself, with no contract: the accumulator after the last element of the range; its properties are stated by `Accumulate`, `FoldLeftAppend`, `FoldLeftCons` and `FoldLeftIgnore` |
| `Fold.Accumulate` | algorithms/accumulate_test.cc:10-12 | walking a valid range `[first, last)` with one accumulator, overwritten by `op(acc, xs[i])` at each position, returns the left fold of exactly that range from `init`; an empty range returns `init` unchanged |
| `Fold.FoldLeftIgnore` | algorithms/accumulate_test.cc:10-12 | for every range and seed, a combine step that ignores the element returns the seed |
| `Fold.FoldLeftAppend` | algorithms/accumulate_test.cc:10-12 | folding `xs + ys` is folding `ys` from the accumulator `xs` left behind: the accumulator after an element depends only on `init` and the elements before it, in order |
| `Fold.FoldLeftCons` | algorithms/accumulate_test.cc:18-21 | read front to back, the first step combines `init` with the first element, and the rest is folded from that value |
| `Fold.Reversed` | algorithms/accumulate_test.cc:25 | the `[rbegin(), rend())` view has as many elements as the vector; `ReversedAt` states which element sits where |
| `Fold.ReversedAt` | algorithms/accumulate_test.cc:24-26 | position k of the reverse-iterator view holds element `|xs| - 1 - k` |
| `Fold.FoldLeftReversed` | algorithms/accumulate_test.cc:23-27 | a left fold over the reverse iterators is the right fold of the sequence with the arguments of `op` swapped |
| `Arithmetic.Plus` | algorithms/accumulate_test.cc:10 | the default step `acc + x`, with no contract; `SumFold` states what folding it computes |
| `Arithmetic.Times` | algorithms/accumulate_test.cc:12 | the `std::multiplies<int>` step `acc * x`, with no contract; `ProductFold` states what folding it computes |
| `Arithmetic.SumFold` | algorithms/accumulate_test.cc:10 | folding `+` from z gives z plus the arithmetic sum of the elements |
| `Arithmetic.ProductFold` | algorithms/accumulate_test.cc:12 | folding `std::multiplies<int>` from z gives z times the arithmetic product of the elements |
| `Arithmetic.SumOfRange` | algorithms/accumulate_test.cc:8-10 | the sum of 1, ..., n is n(n + 1)/2 |
| `Arithmetic.ProductOfRange` | algorithms/accumulate_test.cc:8-12 | the product of 1, ..., n is n! |
| `Arithmetic.BasicsFitInInt` | algorithms/accumulate_test.cc:8-12 | after the first k elements of 1, ..., 10 the sum accumulator is k(k + 1)/2 and the product accumulator is k!, and every one of them fits in a 32-bit `int` |
| `Decimal.NatToString` | algorithms/accumulate_test.cc:15 | the decimal rendering has at least one digit, and starts with '0' exactly when the number is zero |
| `Decimal.NatToStringDigits` | algorithms/accumulate_test.cc:15 | every character of the rendering is a decimal digit |
| `Decimal.ParseNatToString` | algorithms/accumulate_test.cc:15 | reading the rendering back as decimal digits gives the number |
| `Decimal.ToString` | algorithms/accumulate_test.cc:15 | `std::to_string` on an `int`, with no contract; `ToStringSign` and `ParseIntToString` state its properties |
| `Decimal.ToStringSign` | algorithms/accumulate_test.cc:15 | `to_string` of a non-negative value is digits alone that read back to it; of a negative value it is '-' followed by digits that read back to the magnitude |
| `Decimal.ParseIntToString` | algorithms/accumulate_test.cc:20 | for every `int`, the rendering is a decimal integer that reads back to the value, so the seed `to_string(v[0])` loses nothing |
| `DashJoin.DashFold` | algorithms/accumulate_test.cc:14-16 | the `dash_fold` lambda `a + '-' + to_string(b)`, with no contract; `DashFoldAppends` states one step and `DashFoldIsJoin` the fold |
| `DashJoin.DashFoldAppends` | algorithms/accumulate_test.cc:14-16 | one `dash_fold` step keeps the accumulator as its prefix and appends '-' and a decimal integer that reads back to `b` |
| `DashJoin.DashFoldIsJoin` | algorithms/accumulate_test.cc:14-21 | seeded with the first element's rendering, folding `dash_fold` over the rest joins all renderings with '-' in order; the vector must be non-empty, because the seed reads `v[0]` |
| `DashJoin.RightDashFoldIsReversedJoin` | algorithms/accumulate_test.cc:23-27 | seeded with the last element's rendering, folding `dash_fold` over the reverse iterators from the second-to-last element joins the renderings with '-' in reverse order |
| `Collect.IsOdd` | algorithms/accumulate_test.cc:41 | the test `val & 1` as `val % 2 == 1`, with no contract; `Bits.IsOddLowBit` proves the two equal |
| `Collect.IsMultipleOf3` | algorithms/accumulate_test.cc:70 | the test `val % 3 == 0` on Dafny's `%`, with no contract; `Bits.IsMultipleOf3TruncRem` proves it equal to the C++ test |
| `Collect.CollectIf` | algorithms/accumulate_test.cc:40-44 | one collect step, with no contract: `push_back(val)` when the test passes, the vector unchanged otherwise; `CollectFoldIsFilter` states the fold |
| `Collect.Collector` | algorithms/accumulate_test.cc:69-73 | the collect lambda for a given test, as the value passed to accumulate, with no contract; `CollectFoldIsFilter` states the fold |
| `Collect.CollectFoldIsFilter` | algorithms/accumulate_test.cc:40-44 | folding the copy-if step from `acc` gives `acc` followed by the filtered input, and nothing else |
| `Collect.FilterAppend` | algorithms/accumulate_test.cc:69-73 | the filter keeps the original order: filtering a concatenation concatenates the filtered parts |
| `Collect.FilterCounts` | algorithms/accumulate_test.cc:69-73 | the filter keeps every occurrence of a passing value and no occurrence of a failing one |
| `Collect.FilterMembership` | algorithms/accumulate_test.cc:40-44 | a value is in the result exactly when it is in the input and passes the test |
| `Quantify.OrOdd` | algorithms/accumulate_test.cc:100-103 | the any-of step, with no contract; `Bits.OrOddIsBitOr` ties it to `prev \|= (val & 1)` and `OrFoldIsSomeOdd` states the fold |
| `Quantify.AndOdd` | algorithms/accumulate_test.cc:124-127 | the all-of step, with no contract; `Bits.AndOddIsBitAnd` ties it to `prev &= (val & 1)` and `AndFoldIsAllOdd` states the fold |
| `Quantify.OrFoldIsSomeOdd` | algorithms/accumulate_test.cc:99-103 | the `\|=` fold from b is true exactly when b is true or some element is odd |
| `Quantify.AndFoldIsAllOdd` | algorithms/accumulate_test.cc:123-127 | the `&=` fold from b is true exactly when b is true and every element is odd |
| `Quantify.AndFoldFromFalse` | algorithms/accumulate_test.cc:124-126 | an `&=` fold that starts false ends false, whatever the elements |
| `Quantify.OrFoldFromTrue` | algorithms/accumulate_test.cc:100-102 | an `\|=` fold that starts true ends true, whatever the elements |
| `Quantify.AllOfStaysFalse` | algorithms/accumulate_test.cc:131-135 | once the all-of accumulator is false after k elements, it is false after every later element |
| `Quantify.AnyOfStaysTrue` | algorithms/accumulate_test.cc:99-103 | once the any-of accumulator is true after k elements, it is true after every later element |
| `Bits.TwosComplement` | algorithms/accumulate_test.cc:41 | the 32-bit two's-complement pattern of an `int`, which `val & 1` reads here and at :101 and :125, with no contract; `Bits.IsOddLowBit` ties its low bit to `IsOdd` |
| `Bits.TruncRem` | algorithms/accumulate_test.cc:70 | C++'s `%` on `int`, with the quotient truncated towards zero so the remainder takes the dividend's sign, with no contract; `Bits.IsMultipleOf3TruncRem` ties it to `IsMultipleOf3` |
| `Bits.BoolBits` | algorithms/accumulate_test.cc:101 | the promotion of the `bool` accumulator to `int` (1 or 0) inside `prev \|= …` here and `prev &= …` at :125 and :133, with no contract; `Bits.OrOddIsBitOr` and `Bits.AndOddIsBitAnd` use it |
| `Bits.IsOddLowBit` | algorithms/accumulate_test.cc:41 | for every 32-bit `int`, the low bit of its two's-complement pattern is 1 exactly when `IsOdd` holds, negative values included |
| `Bits.IsMultipleOf3TruncRem` | algorithms/accumulate_test.cc:70 | C++'s truncating `val % 3` is zero exactly when `IsMultipleOf3(val)`, for every integer |
| `Bits.OrOddIsBitOr` | algorithms/accumulate_test.cc:101 | `prev \|= (val & 1)` (promote the `bool`, or with the low bit, convert back) is `OrOdd(prev, val)` for every `bool` and `int` |
| `Bits.AndOddIsBitAnd` | algorithms/accumulate_test.cc:125 | `prev &= (val & 1)` (promote the `bool`, and with the low bit, convert back) is `AndOdd(prev, val)` for every `bool` and `int` |
| `AccumulateTest.Basics` | algorithms/accumulate_test.cc:7-33 | over 1..10 the test computes sum 55 and product 3628800, with every accumulator of both folds within `int`, and the strings "1-2-3-4-5-6-7-8-9-10" and "10-9-8-7-6-5-4-3-2-1" |
| `AccumulateTest.SumAndProductOneToTen` | algorithms/accumulate_test.cc:8-12 | the sum fold over 1..10 from 0 is 55 and the product fold from 1 is 3628800, and every prefix's accumulator of both folds is within `int` |
| `AccumulateTest.DashFoldOneToTen` | algorithms/accumulate_test.cc:18-21 | `dash_fold` from "1" over 2..10 gives "1-2-3-4-5-6-7-8-9-10" |
| `AccumulateTest.RightDashFoldOneToTen` | algorithms/accumulate_test.cc:23-27 | `dash_fold` from "10" over the reverse iterators from 9 down to 1 gives "10-9-8-7-6-5-4-3-2-1" |
| `AccumulateTest.FoldBasicTest` | algorithms/accumulate_test.cc:35-62 | collecting the odd values of 1..8 gives exactly 1, 3, 5, 7 |
| `AccumulateTest.OddsOfOneToEight` | algorithms/accumulate_test.cc:36-44 | the odd-collecting fold over 1..8 from the empty vector is 1, 3, 5, 7 |
| `AccumulateTest.ImplCopyIf` | algorithms/accumulate_test.cc:65-90 | collecting the multiples of 3 of 1..9 gives exactly 3, 6, 9 |
| `AccumulateTest.MultiplesOf3OfOneToNine` | algorithms/accumulate_test.cc:66-73 | the multiple-of-3 fold over 1..9 from the empty vector is 3, 6, 9 |
| `AccumulateTest.ImplAnyOf` | algorithms/accumulate_test.cc:93-117 | the OR-fold from `false` over 1..9 is true, so "has odd value" is printed |
| `AccumulateTest.ImplAllOf` | algorithms/accumulate_test.cc:120-137 | the AND-fold from `true` is true over 1, 3, 5, 7, 9 and false once 10 is appended |

## Left out

- meta_programming/type_traits_test.cc: `std::conditional` and
  `std::is_base_of_v` are compile-time type queries with no run-time
  behaviour. Their printed output is implementation-defined mangled names.
- Output capture and printing: `CaptureStdout`, `GetCapturedStdout`,
  `ostream_iterator`, the `ostringstream` comparisons and the `NDEBUG`
  debug printing. The tests' methods promise the folded values and booleans
  that this text is built from, not the text itself.
- `std::move` and value categories in the combine steps. They affect only
  copying, so the accumulator is modelled as a value.
- Iterator types in general. A range is a slice `[first, last)` of a
  sequence, and a reverse-iterator range is a slice of `Reversed`.
- Combine steps with side effects or exceptions. `op` is a pure, total
  function. None of the tests' steps can fail.
- Arithmetic.BasicsFitInInt: C++ `int` arithmetic is modelled with
  unbounded integers. Signed overflow is undefined behaviour, so no
  wrap-around is modelled. The lemma shows instead that no accumulator of
  the sum and product over 1..10 leaves the `int` range.
