/**
  The C++ `int` and `bool` operations inside the collect, any-of and all-of
  combine steps: `val & 1` on a two's-complement `int`, `val % 3` with a
  truncating `%`, and `|=` / `&=` on a `bool` accumulator. Each is tied to
  the integer predicate the rest of the model uses.
 */
module Bits {
  import opened Arithmetic
  import opened Collect
  import opened Quantify

  /** The 32-bit two's-complement bit pattern of an `int` value. */
  function TwosComplement(val: int): bv32
    requires InInt(val)
  {
    (if val < 0 then val + 0x1_0000_0000 else val) as bv32
  }

  /** `val & 1` is 1 exactly when `IsOdd(val)`, for every `int`, negative
      values included. */
  lemma IsOddLowBit(val: int)
    requires InInt(val)
    ensures TwosComplement(val) & 1 == (if IsOdd(val) then 1 else 0)
  {
    var u: int := if val < 0 then val + 0x1_0000_0000 else val;
    assert u % 2 == val % 2;
    var b := u as bv32;
    assert b & 1 == b % 2;
    assert (b % 2) as int == u % 2;
  }

  /** C++'s `%` on `int`, which truncates the quotient towards zero, so the
      remainder takes the sign of the dividend. */
  function TruncRem(a: int, b: int): int
    requires b > 0
  {
    if a >= 0 then a % b else -((-a) % b)
  }

  /** The C++ test `val % 3 == 0` holds exactly when `IsMultipleOf3(val)`. */
  lemma IsMultipleOf3TruncRem(val: int)
    ensures TruncRem(val, 3) == 0 <==> IsMultipleOf3(val)
  {
    if val < 0 {
      var q := (-val) / 3;
      assert -val == 3 * q + (-val) % 3;
      assert val == 3 * (-q) - (-val) % 3;
    }
  }

  /** A `bool` promoted to `int`. */
  function BoolBits(b: bool): bv32 {
    if b then 1 else 0
  }

  /** `prev |= (val & 1)` on a `bool`: `prev` is promoted, or-ed with the low
      bit, and the result converted back to `bool` is `OrOdd(prev, val)`. */
  lemma OrOddIsBitOr(prev: bool, val: int)
    requires InInt(val)
    ensures ((BoolBits(prev) | (TwosComplement(val) & 1)) != 0) == OrOdd(prev, val)
  {
    IsOddLowBit(val);
  }

  /** `prev &= (val & 1)` on a `bool`: `prev` is promoted, and-ed with the low
      bit, and the result converted back to `bool` is `AndOdd(prev, val)`. */
  lemma AndOddIsBitAnd(prev: bool, val: int)
    requires InInt(val)
    ensures ((BoolBits(prev) & (TwosComplement(val) & 1)) != 0) == AndOdd(prev, val)
  {
    IsOddLowBit(val);
  }
}
