/*
 * The bit helpers of the Go engine: read one bit of a byte, force one bit,
 * and turn a bool into 0 or 1. A Go `byte` is a `Byte` here and its `&`,
 * `|` are `Bitwise8`. A shift count is a Go `int`: a negative count panics,
 * so counts are `nat`, and a count of 8 or more shifts the single bit out of
 * the byte.
 */
module GoBits {
  import opened Bytes
  import Registers

  /** `byte(1) << n`: bit n alone, or 0 once n reaches the byte's width. */
  function OneAt(n: nat): Byte {
    if n < 8 then Mask(n) else 0
  }

  /** `GetNthBit`: `b & (byte(1) << n) != 0`. */
  predicate GetNthBit(b: Byte, n: nat) {
    Bitwise8(And, b, OneAt(n)) != 0
  }

  /** `SetNthBit`: `b | (byte(1) << n)` for true, `b & ^(byte(1) << n)` for false. */
  function SetNthBit(b: Byte, n: nat, v: bool): Byte {
    if v then Bitwise8(Or, b, OneAt(n)) else Bitwise8(And, b, 0xFF - OneAt(n))
  }

  /** `Bool2Int`: 1 for true and 0 for false, the weight a flag adds to F. */
  function Bool2Int(b: bool): (i: int)
    ensures i == Registers.Weight(b)
    ensures i != 0 <==> b
  {
    var i := if b then 1 else 0;
    i
  }

  /** `x & 0` is zero. */
  lemma {:induction false} AndZero(x: nat)
    ensures Bitwise(And, x, 0) == 0
  {
    if x != 0 {
      AndZero(x / 2);
    }
  }

  /** For a byte, `x | 0` and `x & 0xFF` are x. */
  lemma OrZeroAndAll(x: Byte)
    ensures Bitwise8(Or, x, 0) == x
    ensures Bitwise8(And, x, 0xFF) == x
  {
    Bitwise8Bits(Or, x, 0);
    Bitwise8Bits(And, x, 0xFF);
    Widths();
    forall k: nat | k < 8
      ensures Bit(Bitwise8(Or, x, 0), k) == Bit(x, k)
      ensures Bit(Bitwise8(And, x, 0xFF), k) == Bit(x, k)
    {
      ZeroBits(k);
      ComplementFlipsBits(0, 8, k);
    }
    BitsDetermine(Bitwise8(Or, x, 0), x, 8);
    BitsDetermine(Bitwise8(And, x, 0xFF), x, 8);
  }

  /** Go's bit test reads bit n as the TypeScript side defines it; there is no bit 8 or above. */
  lemma GetNthBitIsBit(b: Byte, n: nat)
    ensures GetNthBit(b, n) == (n < 8 && Bit(b, n))
  {
    if n < 8 {
      MaskTest(b, n);
    } else {
      AndZero(b);
    }
  }

  /**
   * Go's `SetNthBit` is the TypeScript `x | (1 << k)` / `x & ~(1 << k)` on a
   * bit of the byte, and changes nothing for a count past the byte.
   */
  lemma SetNthBitIsWithBit(b: Byte, n: nat, v: bool)
    ensures n < 8 ==> SetNthBit(b, n, v) == WithBit8(b, n, v)
    ensures 8 <= n ==> SetNthBit(b, n, v) == b
  {
    if n < 8 {
      if v {
        SetBitIsOr(b, n);
      } else {
        ClearBitIsAndNot(b, n);
      }
    } else {
      OrZeroAndAll(b);
    }
  }

  /**
   * `SetNthBit(b, n, v)` reads back v at bit n, when the byte has one, and
   * keeps every other bit.
   */
  lemma SetNthBitBits(b: Byte, n: nat, v: bool, j: nat)
    ensures GetNthBit(SetNthBit(b, n, v), j) == if j == n && n < 8 then v else GetNthBit(b, j)
  {
    var r := SetNthBit(b, n, v);
    SetNthBitIsWithBit(b, n, v);
    GetNthBitIsBit(r, j);
    GetNthBitIsBit(b, j);
    if n < 8 {
      WithBit8Bits(b, n, v);
    }
  }

  /** Forcing a bit twice leaves what the second call asked for; with the same value, once is enough. */
  lemma SetNthBitTwice(b: Byte, n: nat, v: bool, w: bool)
    ensures SetNthBit(SetNthBit(b, n, v), n, w) == SetNthBit(b, n, w)
    ensures SetNthBit(SetNthBit(b, n, v), n, v) == SetNthBit(b, n, v)
  {
    SetNthBitIsWithBit(b, n, v);
    SetNthBitIsWithBit(b, n, w);
    SetNthBitIsWithBit(SetNthBit(b, n, v), n, w);
    SetNthBitIsWithBit(SetNthBit(b, n, v), n, v);
    if n < 8 {
      WithBit8Twice(b, n, v, w);
      WithBit8Twice(b, n, v, v);
    }
  }
}
