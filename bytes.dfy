/*
 * Bytes and bits as the TypeScript engine sees them: JavaScript numbers kept
 * in range by `& 0xff` / `& 0xffff` masks. Bit k of a number is defined by
 * repeated halving, so every fact about bits is a short linear induction.
 */
module Bytes {

  type Byte = x: int | 0 <= x < 0x100
  type Word = x: int | 0 <= x < 0x1_0000
  type BitIndex = k: int | 0 <= k < 8

  /** 2 to the power n. */
  function Pow2(n: nat): (r: nat)
    ensures r >= 1
  {
    if n == 0 then 1 else 2 * Pow2(n - 1)
  }

  /** Bit k of x, least significant first: `(x & (1 << k)) !== 0`. */
  predicate Bit(x: nat, k: nat)
    decreases k
  {
    if k == 0 then x % 2 == 1 else Bit(x / 2, k - 1)
  }

  /**
   * x with bit k forced to v: `x | (1 << k)` when v holds, `x & ~(1 << k)`
   * otherwise. Every other bit is kept and the width does not grow.
   */
  function WithBit(x: nat, k: nat, v: bool): nat
    decreases k
  {
    if k == 0 then x - x % 2 + (if v then 1 else 0)
    else 2 * WithBit(x / 2, k - 1, v) + x % 2
  }

  /** WithBit sets bit k to v, keeps every other bit and does not widen x. */
  lemma {:induction false} WithBitBits(x: nat, k: nat, v: bool)
    ensures Bit(WithBit(x, k, v), k) == v
    ensures forall j: nat :: j != k ==> Bit(WithBit(x, k, v), j) == Bit(x, j)
    ensures forall w: nat :: k < w && x < Pow2(w) ==> WithBit(x, k, v) < Pow2(w)
    decreases k
  {
    if k > 0 {
      WithBitBits(x / 2, k - 1, v);
      var r := WithBit(x, k, v);
      forall j: nat | j != k
        ensures Bit(r, j) == Bit(x, j)
      {
        if j > 0 {
          assert Bit(r, j) == Bit(r / 2, j - 1);
        }
      }
      forall w: nat | k < w && x < Pow2(w)
        ensures r < Pow2(w)
      {
        assert Pow2(w) == 2 * Pow2(w - 1);
        assert x / 2 < Pow2(w - 1);
        assert WithBit(x / 2, k - 1, v) + 1 <= Pow2(w - 1);
      }
    } else {
      forall w: nat | 0 < w && x < Pow2(w)
        ensures WithBit(x, 0, v) < Pow2(w)
      {
        assert Pow2(w) == 2 * Pow2(w - 1);
      }
    }
  }

  /** 2^8 is 256. */
  lemma ByteWidth()
    ensures Pow2(8) == 0x100
  {
  }

  /** The widths used by the register file. */
  lemma Widths()
    ensures Pow2(4) == 0x10 && Pow2(8) == 0x100 && Pow2(16) == 0x1_0000
  {
    assert Pow2(8) == 0x100;
    assert Pow2(16) == Pow2(8) * 0x100;
  }

  /** Two numbers of width w with the same w bits are the same number. */
  lemma {:induction false} BitsDetermine(x: nat, y: nat, w: nat)
    requires x < Pow2(w) && y < Pow2(w)
    requires forall k: nat :: k < w ==> Bit(x, k) == Bit(y, k)
    ensures x == y
  {
    if w > 0 {
      assert Bit(x, 0) == Bit(y, 0);
      forall k: nat | k < w - 1
        ensures Bit(x / 2, k) == Bit(y / 2, k)
      {
        assert Bit(x, k + 1) == Bit(y, k + 1);
      }
      BitsDetermine(x / 2, y / 2, w - 1);
    }
  }

  /** Bits of a number of width w above w are clear. */
  lemma {:induction false} BitsAboveWidth(x: nat, w: nat, k: nat)
    requires x < Pow2(w) && w <= k
    ensures !Bit(x, k)
  {
    if w == 0 {
      assert x == 0;
      ZeroBits(k);
    } else {
      BitsAboveWidth(x / 2, w - 1, k - 1);
    }
  }

  /** Zero has no bit set. */
  lemma {:induction false} ZeroBits(k: nat)
    ensures !Bit(0, k)
  {
    if k > 0 {
      ZeroBits(k - 1);
    }
  }

  /**
   * Bits of `2^s * q + r` with r below `2^s`: the low s bits are r's, the
   * ones above are q's.
   */
  lemma {:induction false} BitSplit(q: nat, r: nat, s: nat, k: nat)
    requires r < Pow2(s)
    ensures Bit(Pow2(s) * q + r, k) == if k < s then Bit(r, k) else Bit(q, k - s)
  {
    if s == 0 {
      assert Pow2(s) * q + r == q;
    } else if k > 0 {
      var m := Pow2(s - 1) * q;
      assert Pow2(s) * q == 2 * m;
      assert (Pow2(s) * q + r) / 2 == m + r / 2;
      BitSplit(q, r / 2, s - 1, k - 1);
    }
  }

  /** The bitwise operators `&`, `|` and `^`. */
  datatype BitOp = And | Or | Xor

  predicate Combine(op: BitOp, p: bool, q: bool) {
    match op
    case And => p && q
    case Or => p || q
    case Xor => p != q
  }

  /** `x & y`, `x | y`, `x ^ y` on naturals, built up from the lowest bit. */
  function Bitwise(op: BitOp, x: nat, y: nat): nat
    decreases x + y
  {
    if x == 0 && y == 0 then 0
    else (if Combine(op, x % 2 == 1, y % 2 == 1) then 1 else 0) + 2 * Bitwise(op, x / 2, y / 2)
  }

  /** Each bit of `x op y` combines the operands' bits at that place. */
  lemma {:induction false} BitwiseBits(op: BitOp, x: nat, y: nat)
    ensures forall k: nat :: Bit(Bitwise(op, x, y), k) == Combine(op, Bit(x, k), Bit(y, k))
    decreases x + y
  {
    var r := Bitwise(op, x, y);
    if x == 0 && y == 0 {
      forall k: nat
        ensures Bit(r, k) == Combine(op, Bit(x, k), Bit(y, k))
      {
        ZeroBits(k);
      }
    } else {
      BitwiseBits(op, x / 2, y / 2);
      forall k: nat
        ensures Bit(r, k) == Combine(op, Bit(x, k), Bit(y, k))
      {
        if k > 0 {
          assert r / 2 == Bitwise(op, x / 2, y / 2);
        }
      }
    }
  }

  /** Operands of width w give a result of width w. */
  lemma {:induction false} BitwiseBelow(op: BitOp, x: nat, y: nat, w: nat)
    requires x < Pow2(w) && y < Pow2(w)
    ensures Bitwise(op, x, y) < Pow2(w)
  {
    if w > 0 && !(x == 0 && y == 0) {
      BitwiseBelow(op, x / 2, y / 2, w - 1);
    }
  }

  /** `x & y`, `x | y`, `x ^ y` on bytes. */
  function Bitwise8(op: BitOp, x: Byte, y: Byte): Byte {
    ByteWidth();
    BitwiseBelow(op, x, y, 8);
    Bitwise(op, x, y)
  }

  /** Each bit of `x op y` on bytes combines the operands' bits at that place. */
  lemma Bitwise8Bits(op: BitOp, x: Byte, y: Byte)
    ensures forall k: nat :: k < 8 ==> Bit(Bitwise8(op, x, y), k) == Combine(op, Bit(x, k), Bit(y, k))
  {
    BitwiseBits(op, x, y);
  }

  /** A byte with bit k forced to v: `x | (1 << k)` or `x & ~(1 << k)`. */
  function WithBit8(x: Byte, k: BitIndex, v: bool): Byte {
    ByteWidth();
    WithBitBits(x, k, v);
    WithBit(x, k, v)
  }

  /** `WithBit8` sets bit k to v and keeps every other bit. */
  lemma WithBit8Bits(x: Byte, k: BitIndex, v: bool)
    ensures Bit(WithBit8(x, k, v), k) == v
    ensures forall j: nat :: j != k ==> Bit(WithBit8(x, k, v), j) == Bit(x, j)
  {
    WithBitBits(x, k, v);
  }

  /** Forcing bit k twice leaves what the second write gave it. */
  lemma WithBit8Twice(x: Byte, k: BitIndex, v: bool, w: bool)
    ensures WithBit8(WithBit8(x, k, v), k, w) == WithBit8(x, k, w)
  {
    var y := WithBit8(x, k, v);
    WithBit8Bits(x, k, v);
    WithBit8Bits(y, k, w);
    WithBit8Bits(x, k, w);
    ByteWidth();
    BitsDetermine(WithBit8(y, k, w), WithBit8(x, k, w), 8);
  }

  /** `1 << k` has exactly bit k set. */
  lemma {:induction false} PowBits(k: nat, j: nat)
    ensures Bit(Pow2(k), j) == (j == k)
  {
    if k == 0 {
      if j > 0 {
        assert Pow2(0) / 2 == 0;
        ZeroBits(j - 1);
      }
    } else if j > 0 {
      assert Pow2(k) / 2 == Pow2(k - 1);
      PowBits(k - 1, j - 1);
    } else {
      assert Pow2(k) % 2 == 0;
    }
  }

  /** `1 << k` for a bit index of a byte. */
  function Mask(k: BitIndex): Byte {
    if k == 0 then 1 else if k == 1 then 2 else if k == 2 then 4 else if k == 3 then 8
    else if k == 4 then 0x10 else if k == 5 then 0x20 else if k == 6 then 0x40 else 0x80
  }

  /** `1 << k` is `2^k`, so it has exactly bit k set. */
  lemma MaskBits(k: BitIndex)
    ensures Mask(k) == Pow2(k)
    ensures forall j: nat :: Bit(Mask(k), j) == (j == k)
  {
    assert Mask(k) == Pow2(k);
    forall j: nat
      ensures Bit(Pow2(k), j) == (j == k)
    {
      PowBits(k, j);
    }
  }

  /** `x & (1 << k)` is zero exactly when bit k of x is clear. */
  lemma MaskTest(x: Byte, k: BitIndex)
    ensures Bitwise8(And, x, Mask(k)) == 0 <==> !Bit(x, k)
  {
    Widths();
    MaskBits(k);
    AndZeroIffDisjoint(x, Mask(k), 8);
    if Bit(x, k) {
      assert Bit(x, k) && Bit(Mask(k), k);
    }
  }

  /** For a byte x, `x | (1 << k)` sets bit k and keeps the others. */
  lemma SetBitIsOr(x: Byte, k: BitIndex)
    ensures Bitwise8(Or, x, Mask(k)) == WithBit8(x, k, true)
  {
    var lhs := Bitwise8(Or, x, Mask(k));
    var rhs := WithBit8(x, k, true);
    MaskBits(k);
    Bitwise8Bits(Or, x, Mask(k));
    WithBit8Bits(x, k, true);
    forall j: nat | j < 8
      ensures Bit(lhs, j) == Bit(rhs, j)
    {
    }
    Widths();
    BitsDetermine(lhs, rhs, 8);
  }

  /** For a byte x, `x & ~(1 << k)` (the mask taken on the byte's 8 bits) clears bit k. */
  lemma ClearBitIsAndNot(x: Byte, k: BitIndex)
    ensures Bitwise8(And, x, 0xFF - Mask(k)) == WithBit8(x, k, false)
  {
    var lhs := Bitwise8(And, x, 0xFF - Mask(k));
    var rhs := WithBit8(x, k, false);
    MaskBits(k);
    Bitwise8Bits(And, x, 0xFF - Mask(k));
    WithBit8Bits(x, k, false);
    forall j: nat | j < 8
      ensures Bit(lhs, j) == Bit(rhs, j)
    {
      Widths();
      ComplementFlipsBits(Mask(k), 8, j);
    }
    Widths();
    BitsDetermine(lhs, rhs, 8);
  }

  /** `x ^ x` is zero. */
  lemma {:induction false} XorSelfZero(x: nat)
    ensures Bitwise(Xor, x, x) == 0
  {
    if x != 0 {
      XorSelfZero(x / 2);
    }
  }

  /** `x & y` is zero exactly when x and y share no set bit below w. */
  lemma AndZeroIffDisjoint(x: nat, y: nat, w: nat)
    requires x < Pow2(w) && y < Pow2(w)
    ensures (forall k: nat :: k < w ==> !(Bit(x, k) && Bit(y, k))) ==> Bitwise(And, x, y) == 0
    ensures (exists k: nat :: k < w && Bit(x, k) && Bit(y, k)) ==> Bitwise(And, x, y) != 0
  {
    BitwiseBits(And, x, y);
    BitwiseBelow(And, x, y, w);
    var r := Bitwise(And, x, y);
    if forall k: nat :: k < w ==> !(Bit(x, k) && Bit(y, k)) {
      forall k: nat | k < w
        ensures Bit(r, k) == Bit(0, k)
      {
        ZeroBits(k);
      }
      BitsDetermine(r, 0, w);
    } else {
      var k: nat :| k < w && Bit(x, k) && Bit(y, k);
      assert Bit(r, k);
      ZeroBits(k);
    }
  }

  /** `x | y` is zero exactly when both are zero. */
  lemma {:induction false} OrZeroIffBothZero(x: nat, y: nat)
    ensures Bitwise(Or, x, y) == 0 <==> x == 0 && y == 0
    decreases x + y
  {
    if !(x == 0 && y == 0) {
      OrZeroIffBothZero(x / 2, y / 2);
    }
  }

  /** `x | y` of two numbers with no set bit in common is their sum. */
  lemma {:induction false} OrDisjointIsSum(x: nat, y: nat, w: nat)
    requires x < Pow2(w) && y < Pow2(w)
    requires forall k: nat :: k < w ==> !(Bit(x, k) && Bit(y, k))
    ensures Bitwise(Or, x, y) == x + y
  {
    if w > 0 {
      assert !(Bit(x, 0) && Bit(y, 0));
      forall k: nat | k < w - 1
        ensures !(Bit(x / 2, k) && Bit(y / 2, k))
      {
        assert !(Bit(x, k + 1) && Bit(y, k + 1));
      }
      OrDisjointIsSum(x / 2, y / 2, w - 1);
    }
  }

  /** `2^w - 1 - x` (the `~x` of a w-bit number, masked back) flips every bit. */
  lemma {:induction false} ComplementFlipsBits(x: nat, w: nat, k: nat)
    requires x < Pow2(w) && k < w
    ensures Bit(Pow2(w) - 1 - x, k) == !Bit(x, k)
  {
    var m := Pow2(w - 1);
    assert Pow2(w) == 2 * m;
    var c := Pow2(w) - 1 - x;
    assert x == 2 * (x / 2) + x % 2;
    assert c == 2 * (m - 1 - x / 2) + (1 - x % 2);
    assert c % 2 == 1 - x % 2 && c / 2 == m - 1 - x / 2;
    if k > 0 {
      ComplementFlipsBits(x / 2, w - 1, k - 1);
    }
  }

  /** `x & 0xf0`: the high nibble of a byte, low four bits cleared. */
  function HighNibble(x: Byte): Byte {
    x - x % 16
  }

  /** `x & 0xf0` keeps bits 7..4 of x and clears bits 3..0. */
  lemma HighNibbleBits(x: Byte)
    ensures forall k: BitIndex :: Bit(HighNibble(x), k) == (k >= 4 && Bit(x, k))
  {
    Widths();
    forall k: BitIndex
      ensures Bit(x - x % 16, k) == (k >= 4 && Bit(x, k))
    {
      BitSplit(x / 16, 0, 4, k);
      BitSplit(x / 16, x % 16, 4, k);
      ZeroBits(k);
    }
  }
}
