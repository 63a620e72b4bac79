/*
 * What the instruction procedures promise, stated on `Exec` and the effect
 * functions beneath it: the arithmetic meaning of each flag, the bits the
 * logic and bit procedures produce, what the loads move and where, and how
 * the stack procedures undo each other.
 */
module InstructionFacts {
  import opened Wrappers
  import opened Bytes
  import opened Registers
  import opened AddressSpace
  import opened CpuCore
  import opened CpuStack
  import opened Semantics

  // The ALU procedures and their three operand forms.

  /** Where an 8-bit ALU procedure takes its operand from. */
  datatype Operand = FromReg(r: R8) | FromHL | FromImm

  /** The procedure of an ALU operation with the given operand form. */
  function AluProc(op: AluOp, o: Operand): Proc {
    match (op, o)
    case (AddOp, FromReg(r)) => ADD_A_r8(r)
    case (AddOp, FromHL) => ADD_A_HL
    case (AddOp, FromImm) => ADD_A_n8
    case (SubOp, FromReg(r)) => SUB_A_r8(r)
    case (SubOp, FromHL) => SUB_A_HL
    case (SubOp, FromImm) => SUB_A_n8
    case (CpOp, FromReg(r)) => CP_A_r8(r)
    case (CpOp, FromHL) => CP_A_HL
    case (CpOp, FromImm) => CP_A_n8
    case (AndOp, FromReg(r)) => AND_A_r8(r)
    case (AndOp, FromHL) => AND_A_HL
    case (AndOp, FromImm) => AND_A_n8
    case (OrOp, FromReg(r)) => OR_A_r8(r)
    case (OrOp, FromHL) => OR_A_HL
    case (OrOp, FromImm) => OR_A_n8
    case (XorOp, FromReg(r)) => XOR_A_r8(r)
    case (XorOp, FromHL) => XOR_A_HL
    case (XorOp, FromImm) => XOR_A_n8
  }

  /** The operand byte: the register, the byte at HL, or the byte at PC. */
  function OperandValue(s: Machine, o: Operand): Byte {
    match o
    case FromReg(r) => s.regs.Get8(r)
    case FromHL => s.mem[AddrHL(s)]
    case FromImm => s.mem[s.regs.pc]
  }

  /**
   * Every ALU procedure is the ALU step on its operand: the register, the
   * byte at HL, or the byte at PC, in which case PC first moves past it.
   */
  lemma AluProcIsAlu(op: AluOp, o: Operand, s: Machine)
    ensures Exec(AluProc(op, o), s).0 ==
      Alu(if o.FromImm? then Advance(s, 1) else s, op, OperandValue(s, o))
  {
  }

  /**
   * The ALU step writes A and the four flags from A and the operand and
   * changes no other register, no memory and not `ime`.
   */
  lemma AluEffect(s: Machine, op: AluOp, x: Byte)
    ensures var t := Alu(s, op, x);
      t.regs.a == AluValue(op, s.regs.a, x) && FlagsOf(t) == AluFlags(op, s.regs.a, x) &&
      t.regs.(a := s.regs.a, f := s.regs.f) == s.regs && t.mem == s.mem && t.ime == s.ime
  {
    PackUnpack(AluFlags(op, s.regs.a, x));
  }

  /**
   * The operand forms: a register or [HL] operand leaves PC, memory and
   * every register but A and F; the n8 form moves PC past its byte.
   */
  lemma AluProcEffect(op: AluOp, o: Operand, s: Machine)
    ensures var t := Exec(AluProc(op, o), s).0;
      var x := OperandValue(s, o);
      t.regs.a == AluValue(op, s.regs.a, x) && FlagsOf(t) == AluFlags(op, s.regs.a, x) &&
      t.mem == s.mem && t.ime == s.ime &&
      t.regs.(a := s.regs.a, f := s.regs.f, pc := s.regs.pc) == s.regs &&
      t.regs.pc == if o.FromImm? then (s.regs.pc + 1) % 0x1_0000 else s.regs.pc
  {
    AluProcIsAlu(op, o, s);
    AluEffect(if o.FromImm? then Advance(s, 1) else s, op, OperandValue(s, o));
  }

  /**
   * The cycles the ALU procedures return: 0 for a register operand and 2 for
   * [HL]; the n8 forms return 0 for ADD, SUB and CP and 2 for AND, OR, XOR.
   */
  lemma AluProcCycles(op: AluOp, o: Operand, s: Machine)
    ensures Exec(AluProc(op, o), s).1 ==
      Some(match o
           case FromReg(_) => 0
           case FromHL => 2
           case FromImm => if op in {AddOp, SubOp, CpOp} then 0 else 2)
  {
  }

  /**
   * ADD: the stored byte plus 256 when C is set is exactly A + x, the low
   * nibble of the sum plus 16 when H is set is exactly the sum of the low
   * nibbles, Z tells whether the stored byte is 0, and N is clear.
   */
  lemma AddMeaning(a: Byte, x: Byte)
    ensures var r := AluValue(AddOp, a, x);
      var fl := AluFlags(AddOp, a, x);
      r + (if fl.c then 0x100 else 0) == a + x &&
      r % 16 + (if fl.h then 16 else 0) == a % 16 + x % 16 &&
      (fl.z <==> r == 0) && !fl.n
  {
    var r := AluValue(AddOp, a, x);
    assert r == if a + x > 0xff then a + x - 0x100 else a + x;
    var ah, al, xh, xl := a / 16, a % 16, x / 16, x % 16;
    assert a == 16 * ah + al && x == 16 * xh + xl;
    var c := if a + x > 0xff then 16 else 0;
    if al + xl > 0xf {
      assert r == 16 * (ah + xh + 1 - c) + (al + xl - 16);
      LowNibble(ah + xh + 1 - c, al + xl - 16);
    } else {
      assert r == 16 * (ah + xh - c) + (al + xl);
      LowNibble(ah + xh - c, al + xl);
    }
  }

  /** The low nibble of `16 * q + m` is m, for m a nibble. */
  lemma LowNibble(q: int, m: int)
    requires 0 <= m < 16
    ensures (16 * q + m) % 16 == m
  {
  }

  /**
   * SUB: the stored byte minus 256 when C is set is exactly A - x, so C is
   * the borrow out of bit 7; the same for the low nibble and H; Z is set
   * exactly when A equals the operand, and N is set.
   */
  lemma SubMeaning(a: Byte, x: Byte)
    ensures var r := AluValue(SubOp, a, x);
      var fl := AluFlags(SubOp, a, x);
      r - (if fl.c then 0x100 else 0) == a - x &&
      r % 16 - (if fl.h then 16 else 0) == a % 16 - x % 16 &&
      (fl.z <==> a == x) && fl.n
  {
    var r := AluValue(SubOp, a, x);
    assert r == if a < x then a - x + 0x100 else a - x;
    var ah, al, xh, xl := a / 16, a % 16, x / 16, x % 16;
    assert a == 16 * ah + al && x == 16 * xh + xl;
    if al < xl {
      assert r == 16 * (if a < x then ah - xh + 15 else ah - xh - 1) + (al - xl + 16);
      LowNibble(if a < x then ah - xh + 15 else ah - xh - 1, al - xl + 16);
    } else {
      assert r == 16 * (if a < x then ah - xh + 16 else ah - xh) + (al - xl);
      LowNibble(if a < x then ah - xh + 16 else ah - xh, al - xl);
    }
  }

  /** CP sets the flags SUB would set and leaves A as it was. */
  lemma CompareIsSubtractKeepingA(s: Machine, x: Byte)
    ensures Alu(s, CpOp, x) == var t := Alu(s, SubOp, x); t.(regs := t.regs.(a := s.regs.a))
    ensures var fl := FlagsOf(Alu(s, CpOp, x));
      (fl.z <==> s.regs.a == x) && (fl.c <==> s.regs.a < x)
  {
    PackUnpack(AluFlags(CpOp, s.regs.a, x));
    SubMeaning(s.regs.a, x);
  }

  /** `SUB A,A` leaves A = 0 with Z and N set, H and C clear. */
  lemma SubtractSelf(s: Machine)
    ensures var t := Exec(SUB_A_r8(R8.A), s).0;
      t.regs.a == 0 && FlagsOf(t) == Flags(true, true, false, false)
  {
    assert Exec(SUB_A_r8(R8.A), s).0 == Alu(s, SubOp, s.regs.a);
    PackUnpack(Flags(true, true, false, false));
  }

  /** `XOR A,A` leaves A = 0 with Z set and N, H, C clear. */
  lemma XorSelf(s: Machine)
    ensures var t := Exec(XOR_A_r8(R8.A), s).0;
      t.regs.a == 0 && FlagsOf(t) == Flags(true, false, false, false)
  {
    assert Exec(XOR_A_r8(R8.A), s).0 == Alu(s, XorOp, s.regs.a);
    XorSelfZero(s.regs.a);
    PackUnpack(Flags(true, false, false, false));
  }

  /** No bit position holds a 1 in both bytes. */
  predicate ShareNoBit(a: Byte, x: Byte) {
    forall k: BitIndex :: !(Bit(a, k) && Bit(x, k))
  }

  /**
   * AND: each bit of the result is set exactly when it is set in both A and
   * the operand, so Z is set exactly when they share no set bit; H is set, N
   * and C clear.
   */
  lemma AndMeaning(a: Byte, x: Byte)
    ensures forall k: BitIndex :: Bit(AluValue(AndOp, a, x), k) == (Bit(a, k) && Bit(x, k))
    ensures AluFlags(AndOp, a, x).z <==> ShareNoBit(a, x)
    ensures var fl := AluFlags(AndOp, a, x); !fl.n && fl.h && !fl.c
  {
    Bitwise8Bits(And, a, x);
    ByteWidth();
    AndZeroIffDisjoint(a, x, 8);
    if ShareNoBit(a, x) {
      forall k: nat | k < 8 ensures !(Bit(a, k) && Bit(x, k)) {
        var j: BitIndex := k;
      }
    } else {
      var k: BitIndex :| Bit(a, k) && Bit(x, k);
      assert k < 8 && Bit(a, k) && Bit(x, k);
    }
  }

  /**
   * OR: each bit of the result is set exactly when it is set in A or the
   * operand, so Z is set exactly when both are 0; N, H and C clear.
   */
  lemma OrMeaning(a: Byte, x: Byte)
    ensures forall k: BitIndex :: Bit(AluValue(OrOp, a, x), k) == (Bit(a, k) || Bit(x, k))
    ensures AluFlags(OrOp, a, x).z <==> a == 0 && x == 0
    ensures var fl := AluFlags(OrOp, a, x); !fl.n && !fl.h && !fl.c
  {
    Bitwise8Bits(Or, a, x);
    OrZeroIffBothZero(a, x);
  }

  /**
   * XOR: each bit of the result is set exactly when A and the operand
   * differ there, so Z is set exactly when they are equal; N, H, C clear.
   */
  lemma XorMeaning(a: Byte, x: Byte)
    ensures forall k: BitIndex :: Bit(AluValue(XorOp, a, x), k) == (Bit(a, k) != Bit(x, k))
    ensures AluFlags(XorOp, a, x).z <==> a == x
    ensures var fl := AluFlags(XorOp, a, x); !fl.n && !fl.h && !fl.c
  {
    Bitwise8Bits(Xor, a, x);
    if a == x {
      XorSelfZero(a);
    } else if AluValue(XorOp, a, x) == 0 {
      forall k: nat | k < 8 ensures Bit(a, k) == Bit(x, k) {
        ZeroBits(k);
      }
      ByteWidth();
      BitsDetermine(a, x, 8);
    }
  }

  // CPL, BIT, RES and SET.

  /**
   * CPL stores the one's complement of A (`255 - A`, every bit flipped),
   * sets N and H, keeps Z and C, and changes no other register, memory or
   * `ime`; applied twice it gives A back.
   */
  lemma ComplementEffect(s: Machine)
    ensures var t := Complement(s);
      t.regs.a == 0xFF - s.regs.a &&
      (forall k: BitIndex :: Bit(t.regs.a, k) == !Bit(s.regs.a, k)) &&
      FlagsOf(t) == FlagsOf(s).(n := true, h := true) &&
      t.regs.(a := s.regs.a, f := s.regs.f) == s.regs && t.mem == s.mem && t.ime == s.ime
    ensures Complement(Complement(s)).regs.a == s.regs.a
  {
    ByteWidth();
    forall k: BitIndex ensures Bit(0xFF - s.regs.a, k) == !Bit(s.regs.a, k) {
      ComplementFlipsBits(s.regs.a, 8, k);
    }
    PackUnpack(FlagsOf(s).(n := true, h := true));
  }

  /**
   * `BIT u3,x` sets Z exactly when bit u3 of x is clear, clears N, sets H,
   * keeps C, and changes nothing but F.
   */
  lemma TestBitEffect(s: Machine, x: Byte, u3: BitIndex)
    ensures var t := TestBit(s, x, u3);
      var fl := FlagsOf(t);
      (fl.z <==> !Bit(x, u3)) && !fl.n && fl.h && fl.c == FlagsOf(s).c &&
      t.regs.(f := s.regs.f) == s.regs && t.mem == s.mem && t.ime == s.ime
  {
    PackUnpack(FlagsOf(s).(z := !Bit(x, u3), n := false, h := true));
  }


  /** RES (v false) or SET (v true) on a register. */
  function BitWriteReg(u3: BitIndex, r: R8, v: bool): Proc {
    if v then SET_u3_r8(u3, r) else RES_u3_r8(u3, r)
  }

  /** RES (v false) or SET (v true) on the byte at HL. */
  function BitWriteHL(u3: BitIndex, v: bool): Proc {
    if v then SET_u3_HL(u3) else RES_u3_HL(u3)
  }

  /**
   * `RES u3,r8` / `SET u3,r8` give bit u3 of the register the value v, keep
   * its other bits, and change no other register (so no flag unless the
   * register is F itself), no memory and not `ime`.
   */
  lemma WriteBitRegister(u3: BitIndex, r: R8, v: bool, s: Machine)
    ensures var t := Exec(BitWriteReg(u3, r, v), s).0;
      Bit(t.regs.Get8(r), u3) == v &&
      (forall j: BitIndex :: j != u3 ==> Bit(t.regs.Get8(r), j) == Bit(s.regs.Get8(r), j)) &&
      (forall q: R8 :: q != r ==> t.regs.Get8(q) == s.regs.Get8(q)) &&
      t.regs.sp == s.regs.sp && t.regs.pc == s.regs.pc && t.mem == s.mem && t.ime == s.ime
  {
    var x := WithBit8(s.regs.Get8(r), u3, v);
    assert Exec(BitWriteReg(u3, r, v), s).0 == s.(regs := s.regs.Set8(r, x));
    WithBit8Bits(s.regs.Get8(r), u3, v);
  }

  /**
   * `RES u3,[HL]` / `SET u3,[HL]` give bit u3 of the byte at HL the value v,
   * keep its other bits and every other byte, and change no register.
   */
  lemma WriteBitMemory(u3: BitIndex, v: bool, s: Machine)
    ensures var t := Exec(BitWriteHL(u3, v), s).0;
      var hl := AddrHL(s);
      Bit(t.mem[hl], u3) == v &&
      (forall j: BitIndex :: j != u3 ==> Bit(t.mem[hl], j) == Bit(s.mem[hl], j)) &&
      (forall a: Word :: a != hl ==> t.mem[a] == s.mem[a]) &&
      t.regs == s.regs && t.ime == s.ime
  {
    var x := WithBit8(s.mem[AddrHL(s)], u3, v);
    assert Exec(BitWriteHL(u3, v), s).0 == s.(mem := s.mem[AddrHL(s) := x]);
    WithBit8Bits(s.mem[AddrHL(s)], u3, v);
  }

  /** `SET` then `RES` of the same bit leaves the register as `RES` alone would. */
  lemma SetThenReset(u3: BitIndex, r: R8, s: Machine)
    ensures Exec(RES_u3_r8(u3, r), Exec(SET_u3_r8(u3, r), s).0).0 == Exec(RES_u3_r8(u3, r), s).0
  {
    var x := s.regs.Get8(r);
    var s1 := Put(s, Reg8(r), WithBit8(x, u3, true));
    assert s1.regs.Get8(r) == WithBit8(x, u3, true);
    WithBit8Twice(x, u3, true, false);
  }

  // ADD HL,r16.

  /** A 16-bit sum and its carries out of bit 15 and out of bit 11. */
  lemma Add16Carries(x: Word, y: Word)
    ensures var r := (x + y) % 0x1_0000;
      r + (if x + y > 0xffff then 0x1_0000 else 0) == x + y &&
      r % 0x1000 + (if x % 0x1000 + y % 0x1000 > 0xfff then 0x1000 else 0) == x % 0x1000 + y % 0x1000
  {
    var r := (x + y) % 0x1_0000;
    assert r == if x + y > 0xffff then x + y - 0x1_0000 else x + y;
    var xh, xl, yh, yl := x / 0x1000, x % 0x1000, y / 0x1000, y % 0x1000;
    assert x == 0x1000 * xh + xl && y == 0x1000 * yh + yl;
    var c := if x + y > 0xffff then 16 else 0;
    if xl + yl > 0xfff {
      assert r == 0x1000 * (xh + yh + 1 - c) + (xl + yl - 0x1000);
    } else {
      assert r == 0x1000 * (xh + yh - c) + (xl + yl);
    }
  }

  /** What `ADD HL,r16` writes: the wrapped sum in HL and the N, H, C flags. */
  lemma AddHLEffect(s: Machine, v: Word)
    ensures var hl, t := AddrHL(s), AddHL(s, v);
      AddrHL(t) == (hl + v) % 0x1_0000 &&
      FlagsOf(t) == FlagsOf(s).(n := false, h := hl % 0x1000 + v % 0x1000 > 0xfff, c := hl + v > 0xffff)
    ensures var t := AddHL(s, v);
      t.regs.(h := s.regs.h, l := s.regs.l, f := s.regs.f) == s.regs && t.mem == s.mem && t.ime == s.ime
  {
    var hl := AddrHL(s);
    var sum: int := (hl as int + v) % 0x1_0000;
    var r1 := Write(s.regs, Reg16(HL), sum);
    assert r1 == s.regs.(h := (sum / 0x100) % 0x100, l := sum % 0x100);
    PairSplit(sum);
    assert r1.h * 0x100 + r1.l == sum;
    PackUnpack(FlagsOf(s).(n := false, h := hl % 0x1000 + v % 0x1000 > 0xfff, c := hl as int + v > 0xffff));
  }

  /**
   * `ADD HL,r16`: the new HL plus 0x10000 when C is set is exactly HL + v,
   * the low 12 bits plus 0x1000 when H is set are the sum of the low 12
   * bits, N is clear, Z is kept.
   */
  lemma AddHLMeaning(s: Machine, v: Word)
    ensures var hl, t := AddrHL(s), AddHL(s, v);
      AddrHL(t) + (if FlagsOf(t).c then 0x1_0000 else 0) == hl + v &&
      AddrHL(t) % 0x1000 + (if FlagsOf(t).h then 0x1000 else 0) == hl % 0x1000 + v % 0x1000 &&
      !FlagsOf(t).n && FlagsOf(t).z == FlagsOf(s).z
  {
    AddHLEffect(s, v);
    Add16Carries(AddrHL(s), v);
  }

  // Loads.

  /** A load whose destination is F or the AF pair. */
  predicate LoadsIntoF(p: Proc) {
    (p.LD_r8_r8? && p.dst == R8.F) || (p.LD_r8_n8? && p.r8 == R8.F) ||
    (p.LD_r8_HL? && p.r8 == R8.F) || (p.LD_r16_n16? && p.r16 == AF)
  }

  /**
   * No load but `LD HL,SP+e8` touches the flags: unless F itself is the
   * destination, F is left as it was.
   */
  lemma LoadsKeepFlags(p: Proc, s: Machine)
    requires IsLoad(p) || IsStore(p)
    requires !p.LD_HL_SP_E8? && !LoadsIntoF(p)
    ensures Exec(p, s).0.regs.f == s.regs.f
  {
    if IsLoad(p) {
      LoadIsLoad(p, s);
      LoadKeepsFlags(p, s);
    } else {
      StoreIsStore(p, s);
      StoreKeepsFlags(p, s);
    }
  }

  /** `Exec` hands a load to `ExecLoad`. */
  lemma LoadIsLoad(p: Proc, s: Machine)
    requires IsLoad(p)
    ensures Exec(p, s) == ExecLoad(p, s)
  {
    assert !IsArithmetic(p) && !IsLogic(p) && !IsBitOp(p) && !IsControl(p);
  }

  /** `Exec` hands a store to `ExecStore`. */
  lemma StoreIsStore(p: Proc, s: Machine)
    requires IsStore(p)
    ensures Exec(p, s) == ExecStore(p, s)
  {
    assert !IsArithmetic(p) && !IsLogic(p) && !IsBitOp(p) && !IsControl(p) && !IsLoad(p);
  }

  lemma LoadKeepsFlags(p: Proc, s: Machine)
    requires IsLoad(p) && !p.LD_HL_SP_E8? && !LoadsIntoF(p)
    ensures ExecLoad(p, s).0.regs.f == s.regs.f
  {
  }

  lemma StoreKeepsFlags(p: Proc, s: Machine)
    requires IsStore(p)
    ensures ExecStore(p, s).0.regs.f == s.regs.f
  {
  }

  /** Writing HL reads back modulo 65536 and touches no other register, memory or IME. */
  lemma PutHL(s: Machine, v: int)
    ensures var t := Put(s, Reg16(HL), v);
      AddrHL(t) == v % 0x1_0000 && t.regs.(h := s.regs.h, l := s.regs.l) == s.regs &&
      t.mem == s.mem && t.ime == s.ime
  {
    PairSplit(v);
  }

  /**
   * `LD r8,r8'` copies r8' into r8 and leaves every other 8-bit register,
   * SP, PC, memory and IME as they were.
   */
  lemma CopyRegister(dst: R8, src: R8, s: Machine)
    ensures var t := Exec(LD_r8_r8(dst, src), s).0;
      t.regs.Get8(dst) == s.regs.Get8(src) &&
      (forall q: R8 :: q != dst ==> t.regs.Get8(q) == s.regs.Get8(q)) &&
      t.regs.sp == s.regs.sp && t.regs.pc == s.regs.pc && t.mem == s.mem && t.ime == s.ime
  {
    LoadIsLoad(LD_r8_r8(dst, src), s);
  }

  /**
   * `LD r8,n8` loads the byte after the opcode into r8 and moves PC past it;
   * the other 8-bit registers and SP are kept (F too, unless it is r8).
   */
  lemma LoadImmediateByte(r: R8, s: Machine)
    ensures var t := Exec(LD_r8_n8(r), s).0;
      t.regs.Get8(r) == s.mem[s.regs.pc] && t.regs.pc == (s.regs.pc + 1) % 0x1_0000 &&
      (forall q: R8 :: q != r ==> t.regs.Get8(q) == s.regs.Get8(q)) &&
      t.regs.sp == s.regs.sp && t.mem == s.mem && t.ime == s.ime
  {
    LoadIsLoad(LD_r8_n8(r), s);
    var s1 := Put(s, Reg8(r), Imm8(s));
    assert s1 == s.(regs := s.regs.Set8(r, Imm8(s)));
  }

  /**
   * `LD r16,n16` (r16 other than PC, whose write is overtaken by the PC
   * step) loads the little-endian word after the opcode into r16 and moves
   * PC past it; memory is kept.
   */
  lemma LoadImmediateWord(rr: R16, s: Machine)
    requires rr != PC
    ensures var t := Exec(LD_r16_n16(rr), s).0;
      Get(t, Reg16(rr)) == Read16(s.mem, s.regs.pc) && t.regs.pc == (s.regs.pc + 2) % 0x1_0000 &&
      t.mem == s.mem && t.ime == s.ime
  {
    LoadIsLoad(LD_r16_n16(rr), s);
    var s1 := Put(s, Reg16(rr), Imm16(s));
    WrittenWordReadsBack(s.regs, rr, Imm16(s));
    assert Exec(LD_r16_n16(rr), s).0 == s1.(regs := s1.regs.(pc := (s1.regs.pc + 2) % 0x1_0000));
    PutKeepsPc(s, Reg16(rr), Imm16(s));
  }

  /** `LD SP,HL` copies HL into SP and changes nothing else. */
  lemma CopyHLToSP(s: Machine)
    ensures Exec(LD_SP_HL, s).0 == s.(regs := s.regs.(sp := AddrHL(s)))
  {
    LoadIsLoad(LD_SP_HL, s);
  }

  /**
   * `LD A,[n16]` reads the address after the opcode, moves PC past it and
   * loads the byte at that address into A; memory is kept.
   */
  lemma LoadFromAbsolute(s: Machine)
    ensures var t := Exec(LD_A_n16, s).0;
      t.regs == s.regs.(a := s.mem[Read16(s.mem, s.regs.pc)], pc := (s.regs.pc + 2) % 0x1_0000) &&
      t.mem == s.mem && t.ime == s.ime
  {
    LoadIsLoad(LD_A_n16, s);
  }

  /**
   * `LD [HL+],A` (`inc`) and `LD [HL-],A` write A at the old HL, then step
   * HL by one, wrapping at 0x0000 and 0xFFFF; nothing else changes.
   */
  lemma StoreThroughHL(s: Machine, inc: bool)
    ensures var hl, t := AddrHL(s), Exec(if inc then LD_HLI_A else LD_HLD_A, s).0;
      t.mem == s.mem[hl := s.regs.a] && AddrHL(t) == (hl + if inc then 1 else -1) % 0x1_0000 &&
      t.regs.(h := s.regs.h, l := s.regs.l) == s.regs && t.ime == s.ime
  {
    var p := if inc then LD_HLI_A else LD_HLD_A;
    var hl: int := AddrHL(s);
    var s1 := Store(s, hl, s.regs.a);
    StoreIsStore(p, s);
    assert ExecStore(p, s).0 == Put(s1, Reg16(HL), hl + if inc then 1 else -1);
    PutHL(s1, hl + if inc then 1 else -1);
  }

  /**
   * `LD A,[HL+]` (`inc`) and `LD A,[HL-]` load the byte at the old HL into
   * A, then step HL by one, wrapping; memory and the other registers are
   * kept.
   */
  lemma LoadThroughHL(s: Machine, inc: bool)
    ensures var hl, t := AddrHL(s), Exec(if inc then LD_A_HLI else LD_A_HLD, s).0;
      t.regs.a == s.mem[hl] && AddrHL(t) == (hl + if inc then 1 else -1) % 0x1_0000 &&
      t.regs.(a := s.regs.a, h := s.regs.h, l := s.regs.l) == s.regs && t.mem == s.mem && t.ime == s.ime
  {
    var p := if inc then LD_A_HLI else LD_A_HLD;
    var hl: int := AddrHL(s);
    var s1 := Put(s, Reg8(R8.A), s.mem[hl]);
    assert s1 == s.(regs := s.regs.(a := s.mem[hl]));
    LoadIsLoad(p, s);
    assert ExecLoad(p, s).0 == Put(s1, Reg16(HL), hl + if inc then 1 else -1);
    PutHL(s1, hl + if inc then 1 else -1);
  }

  /**
   * `LDH [n8],A` writes A at 0xFF00 + n8, an address of the top page, moves
   * PC past the operand, and changes no other byte or register.
   */
  lemma HighPageStore(s: Machine)
    ensures var addr, t := 0xFF00 + Imm8(s), Exec(LDH_n16_A, s).0;
      0xFF00 <= addr <= 0xFFFF && t.mem == s.mem[addr := s.regs.a] &&
      t.regs == s.regs.(pc := (s.regs.pc + 1) % 0x1_0000) && t.ime == s.ime
  {
  }

  /**
   * `LD [n16],A` goes through `write16`: A lands at n16 and a 0 at the byte
   * after it, unlike the hardware, whose one-byte store leaves that byte alone.
   */
  lemma StoreAWritesTwoBytes(s: Machine)
    ensures var n, t := Imm16(s), Exec(LD_n16_A, s).0;
      t.mem[n] == s.regs.a && t.mem[Next(n)] == 0 &&
      (forall a: Word :: a != n && a != Next(n) ==> t.mem[a] == s.mem[a]) &&
      t.regs == s.regs.(pc := (s.regs.pc + 2) % 0x1_0000) && t.ime == s.ime
  {
    var n := Imm16(s);
    assert Next(n) != n;
  }

  /**
   * `LD [n16],SP` stores SP little-endian at n16, so reading the word back
   * there gives SP; PC moves past the two operand bytes.
   */
  lemma StoreSPRoundTrip(s: Machine)
    ensures var n, t := Imm16(s), Exec(LD_n16_SP, s).0;
      Read16(t.mem, n) == s.regs.sp &&
      t.regs == s.regs.(pc := (s.regs.pc + 2) % 0x1_0000) && t.ime == s.ime
  {
    Write16ThenRead16(s.mem, Imm16(s), s.regs.sp);
  }

  /**
   * `LD HL,SP+e8` puts SP plus the sign-extended e8 in HL, keeps SP, clears
   * Z and N, and takes H and C from the unsigned additions of e8 to the low
   * nibble and to the low byte of SP; PC moves past e8.
   */
  lemma AddSpOffsetMeaning(s: Machine)
    ensures var b, sp, t := Imm8(s), s.regs.sp, AddSpOffset(s);
      AddrHL(t) == (sp + SignExtend(b)) % 0x1_0000 &&
      FlagsOf(t) == Flags(false, false, sp % 16 + b % 16 > 0xf, sp % 0x100 + b > 0xff)
  {
    var b := Imm8(s);
    var e := SignExtend(b);
    var sp := s.regs.sp;
    var t := AddSpOffset(s);
    SignExtendLowBits(b);
    var sum: int := (sp + e) % 0x1_0000;
    var fl := Flags(false, false, sp % 16 + b % 16 > 0xf, sp % 0x100 + b > 0xff);
    AddSpOffsetRegs(s);
    assert t.regs.h == (sum / 0x100) % 0x100 && t.regs.l == sum % 0x100;
    assert t.regs.f == Pack(fl);
    PairSplit(sum);
    assert AddrHL(t) == sum;
    PackUnpack(fl);
  }

  /** `LD HL,SP+e8` keeps SP and the other registers and moves PC past e8. */
  lemma AddSpOffsetFrame(s: Machine)
    ensures var t := AddSpOffset(s);
      t.regs.(h := s.regs.h, l := s.regs.l, f := s.regs.f, pc := s.regs.pc) == s.regs &&
      t.regs.pc == (s.regs.pc + 1) % 0x1_0000 && t.mem == s.mem && t.ime == s.ime
  {
    AddSpOffsetRegs(s);
  }

  /** Sign extension keeps the low nibble and the low byte. */
  lemma SignExtendLowBits(b: Byte)
    ensures SignExtend(b) % 16 == b % 16 && SignExtend(b) % 0x100 == b
  {
    if b >= 0x80 {
      assert SignExtend(b) == (b - 0x100) && (b - 0x100) % 0x100 == b;
      assert (b - 0x100) % 16 == b % 16;
    }
  }

  /** The registers after `LD HL,SP+e8`, written out. */
  lemma AddSpOffsetRegs(s: Machine)
    ensures var e, sp := SignExtend(Imm8(s)), s.regs.sp;
      var sum := (sp + e) % 0x1_0000;
      AddSpOffset(s).regs == s.regs.(h := (sum / 0x100) % 0x100, l := sum % 0x100,
        f := Pack(Flags(false, false, sp % 16 + e % 16 > 0xf, sp % 0x100 + e % 0x100 > 0xff)),
        pc := (s.regs.pc + 1) % 0x1_0000)
    ensures AddSpOffset(s).mem == s.mem && AddSpOffset(s).ime == s.ime
  {
  }

  // The stack procedures.

  /** Writing a word into a pair reads it back, and leaves SP alone unless the pair is SP. */
  lemma WrittenWordReadsBack(r: Regs, rr: R16, w: Word)
    ensures Read(Write(r, Reg16(rr), w), Reg16(rr)) == w
    ensures rr != SP ==> Write(r, Reg16(rr), w).sp == r.sp
  {
    PairSplit(w);
  }

  /**
   * `PUSH r16` then `POP r16'` moves the value of r16 into r16' and, unless
   * r16' is SP itself, leaves SP where it started.
   */
  lemma PushThenPop(src: R16, dst: R16, s: Machine)
    ensures var t := Exec(POP_r16(dst), Exec(PUSH_r16(src), s).0).0;
      Get(t, Reg16(dst)) == Get(s, Reg16(src)) && (dst != SP ==> t.regs.sp == s.regs.sp)
  {
    var v := Get(s, Reg16(src));
    ControlIsControl(PUSH_r16(src), s);
    ControlIsControl(POP_r16(dst), PushWord(s, v));
    PopUndoesPush(s, v, dst);
  }

  /** `Exec` hands a stack, jump or carry-flag procedure to `ExecControl`. */
  lemma ControlIsControl(p: Proc, s: Machine)
    requires IsControl(p)
    ensures Exec(p, s) == ExecControl(p, s)
  {
    assert !IsArithmetic(p) && !IsLogic(p) && !IsBitOp(p);
  }

  /** Popping a pushed word into a pair puts the word there and SP back. */
  lemma PopUndoesPush(s: Machine, v: Word, dst: R16)
    ensures var t := PopInto(PushWord(s, v), Reg16(dst));
      Get(t, Reg16(dst)) == v && (dst != SP ==> t.regs.sp == s.regs.sp)
  {
    PushPopWord(s, v);
    var (s2, w) := PopWord(PushWord(s, v));
    WrittenWordReadsBack(s2.regs, dst, w);
  }

  /**
   * The generic `POP_r16` given AF (the procedure file leaves a dedicated
   * POP AF as TODO) stores the popped low byte in F unmasked: with 0x0F on
   * top of the stack, F ends up with its low nibble set, which `set_flag`
   * never produces, unlike the hardware, where the low nibble of F always
   * reads 0.
   */
  lemma PopAFUnmasked(s: Machine)
    requires s.mem[s.regs.sp] == 0x0F
    ensures Exec(POP_r16(AF), s).0.regs.f == 0x0F
  {
    var (s2, w) := PopWord(s);
    assert w % 0x100 == 0x0F;
  }

  /**
   * CALL pushes the address after its operand (PC + 2) and jumps to the
   * operand: SP drops by two and the word at the new SP is the return
   * address.
   */
  lemma CallEffect(s: Machine)
    ensures var t := Call(s);
      t.regs.pc == Imm16(s) && t.regs.sp == Below(s.regs.sp, 2) &&
      Read16(t.mem, t.regs.sp) == (s.regs.pc + 2) % 0x1_0000 &&
      t.regs.(pc := s.regs.pc, sp := s.regs.sp) == s.regs && t.ime == s.ime
  {
    var s1 := Advance(s, 2);
    PushWordEffect(s1, s1.regs.pc);
    assert Next(Below(s.regs.sp, 2)) == Below(s.regs.sp, 1);
  }

  /**
   * CALL then RET resumes right after the CALL's operand with SP and every
   * other register as they were before the CALL.
   */
  lemma CallThenReturn(s: Machine)
    ensures var t := Exec(RET, Exec(CALL, s).0).0;
      t.regs == s.regs.(pc := (s.regs.pc + 2) % 0x1_0000) && t.ime == s.ime
  {
    ControlIsControl(CALL, s);
    ControlIsControl(RET, Call(s));
    ReturnUndoesCall(s);
  }

  /** Popping into PC after `Call` restores every register but PC, which is the return address. */
  lemma ReturnUndoesCall(s: Machine)
    ensures PopInto(Call(s), Reg16(PC)).regs == s.regs.(pc := (s.regs.pc + 2) % 0x1_0000)
    ensures PopInto(Call(s), Reg16(PC)).ime == s.ime
  {
    var ret := (s.regs.pc + 2) % 0x1_0000;
    var s1 := Advance(s, 2);
    var s2 := PushWord(s1, ret);
    PushPopWord(s1, ret);
    PopIgnoresPc(s2, Imm16(s));
  }

  /** Where PC points does not matter to a pop. */
  lemma PopIgnoresPc(s: Machine, x: Word)
    ensures PopWord(Put(s, Reg16(PC), x)).1 == PopWord(s).1
    ensures PopWord(Put(s, Reg16(PC), x)).0 == PopWord(s).0.(regs := PopWord(s).0.regs.(pc := x))
  {
  }

  /**
   * `JP n16` jumps to the word after the opcode and `JP HL` to HL; both
   * change nothing else.
   */
  lemma JumpTargets(s: Machine)
    ensures Exec(JP_n16, s).0 == s.(regs := s.regs.(pc := Read16(s.mem, s.regs.pc)))
    ensures Exec(JP_HL, s).0 == s.(regs := s.regs.(pc := AddrHL(s)))
  {
    ControlIsControl(JP_n16, s);
    ControlIsControl(JP_HL, s);
  }

  /**
   * DI clears and EI sets the interrupt master enable at once, with no
   * delay of one instruction, unlike the hardware, where EI takes effect
   * after the next instruction; neither touches a register or memory.
   */
  lemma InterruptEnable(s: Machine)
    ensures Exec(DI, s).0 == s.(ime := 0) && Exec(EI, s).0 == s.(ime := 1)
    ensures Exec(DI, Exec(EI, s).0).0.ime == 0
  {
    ControlIsControl(DI, s);
    ControlIsControl(EI, s);
    ControlIsControl(DI, s.(ime := 1));
  }

  // The carry-flag procedures.

  /**
   * SCF sets C and clears N and H; CCF only inverts C, unlike the hardware,
   * which also clears N and H, so applying it twice gives the flags back;
   * both keep Z and every other register.
   */
  lemma CarryFlagOps(s: Machine)
    ensures FlagsOf(SetCarry(s)) == FlagsOf(s).(n := false, h := false, c := true)
    ensures FlagsOf(ComplementCarry(s)) == FlagsOf(s).(c := !FlagsOf(s).c)
    ensures FlagsOf(ComplementCarry(ComplementCarry(s))) == FlagsOf(s)
    ensures SetCarry(s).regs.(f := s.regs.f) == s.regs && ComplementCarry(s).regs.(f := s.regs.f) == s.regs
  {
    PackUnpack(FlagsOf(s).(n := false, h := false, c := true));
    PackUnpack(FlagsOf(s).(c := !FlagsOf(s).c));
    PackUnpack(FlagsOf(s));
  }

  // The whole table.

  /** CALL is the one procedure that returns no cycle count. */
  lemma CyclesExceptCall(p: Proc, s: Machine)
    ensures Exec(p, s).1.None? <==> p == CALL
  {
    if IsArithmetic(p) {
      ArithmeticCycles(p, s);
    } else if IsLogic(p) {
      LogicCycles(p, s);
    } else if IsBitOp(p) {
      BitOpCycles(p, s);
    } else if IsControl(p) {
      ControlCycles(p, s);
    } else if IsLoad(p) {
      LoadCycles(p, s);
    } else {
      StoreCycles(p, s);
    }
  }

  lemma ArithmeticCycles(p: Proc, s: Machine)
    requires IsArithmetic(p)
    ensures ExecArithmetic(p, s).1.Some?
  {
  }

  lemma LogicCycles(p: Proc, s: Machine)
    requires IsLogic(p)
    ensures ExecLogic(p, s).1.Some?
  {
  }

  lemma BitOpCycles(p: Proc, s: Machine)
    requires IsBitOp(p)
    ensures ExecBitOps(p, s).1.Some?
  {
  }

  lemma ControlCycles(p: Proc, s: Machine)
    requires IsControl(p)
    ensures ExecControl(p, s).1.None? <==> p == CALL
  {
  }

  lemma LoadCycles(p: Proc, s: Machine)
    requires IsLoad(p)
    ensures ExecLoad(p, s).1.Some?
  {
  }

  lemma StoreCycles(p: Proc, s: Machine)
    requires IsStore(p)
    ensures ExecStore(p, s).1.Some?
  {
  }

  /** Only DI and EI write the interrupt master enable. */
  lemma ImeOnlyByDiEi(p: Proc, s: Machine)
    requires p != DI && p != EI
    ensures Exec(p, s).0.ime == s.ime
  {
    if IsArithmetic(p) {
      ArithmeticKeepsIme(p, s);
    } else if IsLogic(p) {
      LogicKeepsIme(p, s);
    } else if IsBitOp(p) {
      BitOpsKeepIme(p, s);
    } else if IsControl(p) {
      ControlKeepsIme(p, s);
    } else if IsLoad(p) {
      LoadKeepsIme(p, s);
    } else {
      StoreKeepsIme(p, s);
    }
  }

  lemma ArithmeticKeepsIme(p: Proc, s: Machine)
    requires IsArithmetic(p)
    ensures ExecArithmetic(p, s).0.ime == s.ime
  {
  }

  lemma LogicKeepsIme(p: Proc, s: Machine)
    requires IsLogic(p)
    ensures ExecLogic(p, s).0.ime == s.ime
  {
  }

  lemma BitOpsKeepIme(p: Proc, s: Machine)
    requires IsBitOp(p)
    ensures ExecBitOps(p, s).0.ime == s.ime
  {
  }

  lemma LoadKeepsIme(p: Proc, s: Machine)
    requires IsLoad(p)
    ensures ExecLoad(p, s).0.ime == s.ime
  {
  }

  lemma StoreKeepsIme(p: Proc, s: Machine)
    requires IsStore(p)
    ensures ExecStore(p, s).0.ime == s.ime
  {
  }

  lemma ControlKeepsIme(p: Proc, s: Machine)
    requires IsControl(p) && p != DI && p != EI
    ensures ExecControl(p, s).0.ime == s.ime
  {
  }

  /** How many operand bytes follow the opcode of a procedure. */
  function OperandBytes(p: Proc): nat {
    if p.ADD_A_n8? || p.SUB_A_n8? || p.CP_A_n8? || p.AND_A_n8? || p.OR_A_n8? || p.XOR_A_n8? ||
       p.LD_r8_n8? || p.LD_HL_n8? || p.LD_HL_SP_E8? || p.LDH_n16_A?
    then 1
    else if p.LD_r16_n16? || p.LD_SP_n16? || p.LD_n16_SP? || p.LD_n16_A? || p.LD_A_n16? ||
       p.CALL? || p.JP_n16?
    then 2
    else 0
  }

  /** A procedure that writes PC with something other than its next address. */
  predicate Jumps(p: Proc) {
    p.JP_HL? || p.JP_n16? || p.CALL? || p.RET? ||
    (p.POP_r16? && p.r16 == PC) || (p.LD_r16_n16? && p.r16 == PC)
  }

  /**
   * Every procedure that does not jump leaves PC just past its operand
   * bytes: one for the n8 and e8 forms, two for the n16 forms, none
   * otherwise.
   */
  lemma PcAdvance(p: Proc, s: Machine)
    requires !Jumps(p)
    ensures Exec(p, s).0.regs.pc == (s.regs.pc + OperandBytes(p)) % 0x1_0000
  {
    if IsArithmetic(p) {
      PcAdvanceArithmetic(p, s);
    } else if IsLogic(p) {
      PcAdvanceLogic(p, s);
    } else if IsBitOp(p) {
      PcAdvanceBitOps(p, s);
    } else if IsControl(p) {
      PcAdvanceControl(p, s);
    } else if IsLoad(p) {
      PcAdvanceLoad(p, s);
    } else {
      PcAdvanceStore(p, s);
    }
  }

  lemma PcAdvanceArithmetic(p: Proc, s: Machine)
    requires IsArithmetic(p)
    ensures ExecArithmetic(p, s).0.regs.pc == (s.regs.pc + OperandBytes(p)) % 0x1_0000
  {
  }

  lemma PcAdvanceLogic(p: Proc, s: Machine)
    requires IsLogic(p)
    ensures ExecLogic(p, s).0.regs.pc == (s.regs.pc + OperandBytes(p)) % 0x1_0000
  {
  }

  lemma PcAdvanceBitOps(p: Proc, s: Machine)
    requires IsBitOp(p)
    ensures ExecBitOps(p, s).0.regs.pc == (s.regs.pc + OperandBytes(p)) % 0x1_0000
  {
  }

  lemma PcAdvanceControl(p: Proc, s: Machine)
    requires IsControl(p) && !Jumps(p)
    ensures ExecControl(p, s).0.regs.pc == (s.regs.pc + OperandBytes(p)) % 0x1_0000
  {
  }

  lemma PcAdvanceLoad(p: Proc, s: Machine)
    requires IsLoad(p) && !Jumps(p)
    ensures ExecLoad(p, s).0.regs.pc == (s.regs.pc + OperandBytes(p)) % 0x1_0000
  {
    if LoadsImmediate(p) {
      PcAdvanceLoadImmediate(p, s);
    } else {
      PcAdvanceLoadOther(p, s);
    }
  }

  /** The loads into registers that carry an operand. */
  predicate LoadsImmediate(p: Proc) {
    p.LD_r8_n8? || p.LD_r16_n16? || p.LD_SP_n16? || p.LD_A_n16? || p.LD_HL_SP_E8?
  }

  lemma PcAdvanceLoadImmediate(p: Proc, s: Machine)
    requires LoadsImmediate(p) && !Jumps(p)
    ensures ExecLoad(p, s).0.regs.pc == (s.regs.pc + OperandBytes(p)) % 0x1_0000
  {
    match p {
      case LD_r8_n8(r) => PutKeepsPc(s, Reg8(r), Imm8(s));
      case LD_r16_n16(rr) => PutKeepsPc(s, Reg16(rr), Imm16(s));
      case LD_SP_n16 => PutKeepsPc(s, Reg16(SP), Imm16(s));
      case LD_A_n16 => PutKeepsPc(Advance(s, 2), Reg8(R8.A), Advance(s, 2).mem[Imm16(s)]);
      case LD_HL_SP_E8 => AddSpOffsetRegs(s);
    }
  }

  /** Writing any register but PC leaves PC alone. */
  lemma PutKeepsPc(s: Machine, name: Reg, v: int)
    requires name != Reg16(PC)
    ensures Put(s, name, v).regs.pc == s.regs.pc
  {
  }

  lemma PcAdvanceLoadOther(p: Proc, s: Machine)
    requires IsLoad(p) && !LoadsImmediate(p)
    ensures ExecLoad(p, s).0.regs.pc == s.regs.pc && OperandBytes(p) == 0
  {
  }

  lemma PcAdvanceStore(p: Proc, s: Machine)
    requires IsStore(p)
    ensures ExecStore(p, s).0.regs.pc == (s.regs.pc + OperandBytes(p)) % 0x1_0000
  {
  }
}
