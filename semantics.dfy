/*
 * What each implemented SM83 instruction procedure does, as a function from
 * the machine state before it to the state after it and the machine-cycle
 * count it returns. The procedures that change the CPU object in place are
 * proved against this function; the lemmas of module InstructionFacts
 * (instruction_facts.dfy) state what the hardware description promises
 * about it.
 */
module Semantics {
  import opened Bytes
  import opened Registers
  import opened AddressSpace
  import opened CpuCore
  import opened CpuStack
  import opened Wrappers

  /** The machine-cycle count a procedure returns. */
  type MCycles = nat

  /**
   * The implemented procedures, named as the instruction tables name them,
   * with their operands. A `u3` operand is a bit index 0..7.
   */
  datatype Proc =
    | ADD_A_r8(r8: R8) | ADD_A_HL | ADD_A_n8 | ADD_HL_r16(r16: R16)
    | SUB_A_r8(r8: R8) | SUB_A_HL | SUB_A_n8
    | CP_A_r8(r8: R8) | CP_A_HL | CP_A_n8
    | POP_r16(r16: R16) | PUSH_r16(r16: R16)
    | AND_A_r8(r8: R8) | AND_A_HL | AND_A_n8
    | OR_A_r8(r8: R8) | OR_A_HL | OR_A_n8
    | XOR_A_r8(r8: R8) | XOR_A_HL | XOR_A_n8
    | CPL
    | BIT_u3_r8(u3: BitIndex, r8: R8) | BIT_u3_HL(u3: BitIndex)
    | RES_u3_r8(u3: BitIndex, r8: R8) | RES_u3_HL(u3: BitIndex)
    | SET_u3_r8(u3: BitIndex, r8: R8) | SET_u3_HL(u3: BitIndex)
    | DI | EI
    | CALL | JP_HL | JP_n16 | RET
    | LD_r8_r8(dst: R8, src: R8) | LD_r8_n8(r8: R8) | LD_r16_n16(r16: R16)
    | LD_r16_A(r16: R16) | LD_HL_r8(r8: R8) | LD_HL_n8 | LD_SP_n16
    | LD_A_r16(r16: R16) | LD_r8_HL(r8: R8)
    | LD_HLI_A | LD_HLD_A | LD_A_HLI | LD_A_HLD
    | LD_SP_HL | LD_n16_SP | LD_n16_A | LD_A_n16 | LD_HL_SP_E8 | LDH_n16_A
    | NOP | CCF | SCF

  // Reading and updating the machine state.

  /** `get_reg(name)`. */
  function Get(s: Machine, name: Reg): Word {
    Read(s.regs, name)
  }

  /** `set_reg(name, v)`. */
  function Put(s: Machine, name: Reg, v: int): Machine {
    s.(regs := Write(s.regs, name, v))
  }

  /** `inc_reg(PC, n)`. */
  function Advance(s: Machine, n: nat): Machine {
    Put(s, Reg16(PC), s.regs.pc + n)
  }

  /** The address in HL. */
  function AddrHL(s: Machine): Word {
    Get(s, Reg16(HL))
  }

  /** The byte HL points to. */
  function AtHL(s: Machine): Byte {
    s.mem[AddrHL(s)]
  }

  /** The 8-bit operand at PC. */
  function Imm8(s: Machine): Byte {
    s.mem[s.regs.pc]
  }

  /** The little-endian 16-bit operand at PC. */
  function Imm16(s: Machine): Word {
    Read16(s.mem, s.regs.pc)
  }

  /** A bus write of one byte. */
  function Store(s: Machine, addr: Word, v: Byte): Machine {
    s.(mem := s.mem[addr := v])
  }

  /** The flags held in F. */
  function FlagsOf(s: Machine): Flags {
    Unpack(s.regs.f)
  }

  /** F rewritten to hold exactly the given flags. */
  function SetFlags(s: Machine, fl: Flags): Machine {
    s.(regs := s.regs.(f := Pack(fl)))
  }

  // The arithmetic and logic unit.

  /** The operation of an 8-bit ALU instruction. */
  datatype AluOp = AddOp | SubOp | CpOp | AndOp | OrOp | XorOp

  /** `(A & 0xf) + (x & 0xf) > 0xf`: a carry out of bit 3. */
  predicate HalfCarry(a: Byte, x: Byte) {
    a % 16 + x % 16 > 0xf
  }

  /** `(A & 0xf) < (x & 0xf)`: a borrow into bit 4. */
  predicate HalfBorrow(a: Byte, x: Byte) {
    a % 16 < x % 16
  }

  /** The byte an ALU instruction leaves in A; CP leaves A as it was. */
  function AluValue(op: AluOp, a: Byte, x: Byte): Byte {
    match op
    case AddOp => (a + x) % 0x100
    case SubOp => (a - x) % 0x100
    case CpOp => a
    case AndOp => Bitwise8(And, a, x)
    case OrOp => Bitwise8(Or, a, x)
    case XorOp => Bitwise8(Xor, a, x)
  }

  /** The four flags an ALU instruction writes. */
  function AluFlags(op: AluOp, a: Byte, x: Byte): Flags {
    match op
    case AddOp => Flags((a + x) % 0x100 == 0, false, HalfCarry(a, x), a + x > 0xff)
    case SubOp => Flags((a - x) % 0x100 == 0, true, HalfBorrow(a, x), a < x)
    case CpOp => Flags((a - x) % 0x100 == 0, true, HalfBorrow(a, x), a < x)
    case AndOp => Flags(Bitwise8(And, a, x) == 0, false, true, false)
    case OrOp => Flags(Bitwise8(Or, a, x) == 0, false, false, false)
    case XorOp => Flags(Bitwise8(Xor, a, x) == 0, false, false, false)
  }

  /** An ALU instruction with operand x: A and F rewritten, nothing else. */
  function Alu(s: Machine, op: AluOp, x: Byte): Machine {
    s.(regs := s.regs.(a := AluValue(op, s.regs.a, x), f := Pack(AluFlags(op, s.regs.a, x))))
  }

  /** `ADD HL,r16`: HL := (HL + v) & 0xffff, N cleared, H and C from bits 11 and 15, Z kept. */
  function AddHL(s: Machine, v: Word): Machine {
    var hl := AddrHL(s);
    var s1 := Put(s, Reg16(HL), (hl + v) % 0x1_0000);
    SetFlags(s1, FlagsOf(s).(n := false, h := hl % 0x1000 + v % 0x1000 > 0xfff, c := hl + v > 0xffff))
  }

  /** `(b << 24) >> 24`: the byte read as a two's-complement number. */
  function SignExtend(b: Byte): (e: int)
    ensures -0x80 <= e < 0x80
  {
    if b < 0x80 then b else b - 0x100
  }

  /** `pop_r16`: the word at SP popped into the named pair; RET pops into PC. */
  function PopInto(s: Machine, name: Reg): Machine {
    var (s1, v) := PopWord(s);
    Put(s1, name, v)
  }

  /** `CPL`: A := ~A, N and H set, Z and C kept. */
  function Complement(s: Machine): Machine {
    // `~A` masked to a byte by `set_reg`
    var s1 := Put(s, Reg8(R8.A), -(s.regs.a + 1));
    SetFlags(s1, FlagsOf(s).(n := true, h := true))
  }

  /** `BIT u3,x`: Z := bit u3 of x is clear, N cleared, H set, C kept. */
  function TestBit(s: Machine, x: Byte, u3: BitIndex): Machine {
    SetFlags(s, FlagsOf(s).(z := !Bit(x, u3), n := false, h := true))
  }

  /** `CALL n16`: push the address after the operand, then jump to n16. */
  function Call(s: Machine): Machine {
    var s1 := Advance(s, 2);
    Put(PushWord(s1, s1.regs.pc), Reg16(PC), Imm16(s))
  }

  /** `LD A,[n16]`: the operand is consumed, then A := the byte at n16. */
  function LoadFromImm16(s: Machine): Machine {
    var s1 := Advance(s, 2);
    Put(s1, Reg8(R8.A), s1.mem[Imm16(s)])
  }

  /**
   * `LD HL,SP+e8`: HL := SP + e8 with e8 sign-extended, Z and N cleared,
   * H and C from the unsigned additions of the low nibble and the low byte.
   */
  function AddSpOffset(s: Machine): Machine {
    var e := SignExtend(Imm8(s));
    var sp := s.regs.sp;
    var s1 := Put(Advance(s, 1), Reg16(HL), (sp + e) % 0x1_0000);
    SetFlags(s1, Flags(false, false, sp % 16 + e % 16 > 0xf, sp % 0x100 + e % 0x100 > 0xff))
  }

  /**
   * `CCF`: C inverted, every other flag kept, unlike the hardware, which
   * also clears N and H.
   */
  function ComplementCarry(s: Machine): Machine {
    SetFlags(s, FlagsOf(s).(c := !FlagsOf(s).c))
  }

  /** `SCF`: C set, N and H cleared, Z kept. */
  function SetCarry(s: Machine): Machine {
    SetFlags(s, FlagsOf(s).(n := false, h := false, c := true))
  }

  // The sections of the procedure file, each a group of procedures.

  /** ADD, SUB, CP and ADD HL. */
  predicate IsArithmetic(p: Proc) {
    p.ADD_A_r8? || p.ADD_A_HL? || p.ADD_A_n8? || p.ADD_HL_r16? || p.SUB_A_r8? || p.SUB_A_HL? ||
    p.SUB_A_n8? || p.CP_A_r8? || p.CP_A_HL? || p.CP_A_n8?
  }

  /** AND, OR, XOR and CPL. */
  predicate IsLogic(p: Proc) {
    p.AND_A_r8? || p.AND_A_HL? || p.AND_A_n8? || p.OR_A_r8? || p.OR_A_HL? || p.OR_A_n8? ||
    p.XOR_A_r8? || p.XOR_A_HL? || p.XOR_A_n8? || p.CPL?
  }

  /** BIT, RES and SET. */
  predicate IsBitOp(p: Proc) {
    p.BIT_u3_r8? || p.BIT_u3_HL? || p.RES_u3_r8? || p.RES_u3_HL? || p.SET_u3_r8? || p.SET_u3_HL?
  }

  /** Stack, jump, interrupt-enable, carry-flag and NOP. */
  predicate IsControl(p: Proc) {
    p.POP_r16? || p.PUSH_r16? || p.DI? || p.EI? || p.CALL? || p.JP_HL? || p.JP_n16? || p.RET? ||
    p.NOP? || p.CCF? || p.SCF?
  }

  /** Loads into a register. */
  predicate IsLoad(p: Proc) {
    p.LD_r8_r8? || p.LD_r8_n8? || p.LD_r16_n16? || p.LD_SP_n16? || p.LD_A_r16? || p.LD_r8_HL? ||
    p.LD_A_HLI? || p.LD_A_HLD? || p.LD_SP_HL? || p.LD_A_n16? || p.LD_HL_SP_E8?
  }

  /** Loads into memory. */
  predicate IsStore(p: Proc) {
    p.LD_r16_A? || p.LD_HL_r8? || p.LD_HL_n8? || p.LD_HLI_A? || p.LD_HLD_A? || p.LD_n16_SP? ||
    p.LD_n16_A? || p.LDH_n16_A?
  }

  /** `Exec` for ADD, SUB and CP. */
  function ExecArithmetic(p: Proc, s: Machine): (Machine, Option<MCycles>)
    requires IsArithmetic(p)
  {
    match p
    case ADD_A_r8(r) => (Alu(s, AddOp, s.regs.Get8(r)), Some(0))
    case ADD_A_HL => (Alu(s, AddOp, AtHL(s)), Some(2))
    case ADD_A_n8 => (Alu(Advance(s, 1), AddOp, Imm8(s)), Some(0))
    case ADD_HL_r16(rr) => (AddHL(s, Get(s, Reg16(rr))), Some(0))
    case SUB_A_r8(r) => (Alu(s, SubOp, s.regs.Get8(r)), Some(0))
    case SUB_A_HL => (Alu(s, SubOp, AtHL(s)), Some(2))
    case SUB_A_n8 => (Alu(Advance(s, 1), SubOp, Imm8(s)), Some(0))
    case CP_A_r8(r) => (Alu(s, CpOp, s.regs.Get8(r)), Some(0))
    case CP_A_HL => (Alu(s, CpOp, AtHL(s)), Some(2))
    case CP_A_n8 => (Alu(Advance(s, 1), CpOp, Imm8(s)), Some(0))
  }

  /** `Exec` for AND, OR, XOR and CPL. */
  function ExecLogic(p: Proc, s: Machine): (Machine, Option<MCycles>)
    requires IsLogic(p)
  {
    match p
    case AND_A_r8(r) => (Alu(s, AndOp, s.regs.Get8(r)), Some(0))
    case AND_A_HL => (Alu(s, AndOp, AtHL(s)), Some(2))
    case AND_A_n8 => (Alu(Advance(s, 1), AndOp, Imm8(s)), Some(2))
    case OR_A_r8(r) => (Alu(s, OrOp, s.regs.Get8(r)), Some(0))
    case OR_A_HL => (Alu(s, OrOp, AtHL(s)), Some(2))
    case OR_A_n8 => (Alu(Advance(s, 1), OrOp, Imm8(s)), Some(2))
    case XOR_A_r8(r) => (Alu(s, XorOp, s.regs.Get8(r)), Some(0))
    case XOR_A_HL => (Alu(s, XorOp, AtHL(s)), Some(2))
    case XOR_A_n8 => (Alu(Advance(s, 1), XorOp, Imm8(s)), Some(2))
    case CPL => (Complement(s), Some(0))
  }

  /** `Exec` for BIT, RES and SET. */
  function ExecBitOps(p: Proc, s: Machine): (Machine, Option<MCycles>)
    requires IsBitOp(p)
  {
    match p
    case BIT_u3_r8(u3, r) => (TestBit(s, s.regs.Get8(r), u3), Some(2))
    case BIT_u3_HL(u3) => (TestBit(s, AtHL(s), u3), Some(2))
    case RES_u3_r8(u3, r) => (Put(s, Reg8(r), WithBit8(s.regs.Get8(r), u3, false)), Some(2))
    case RES_u3_HL(u3) => (Store(s, AddrHL(s), WithBit8(AtHL(s), u3, false)), Some(2))
    case SET_u3_r8(u3, r) => (Put(s, Reg8(r), WithBit8(s.regs.Get8(r), u3, true)), Some(2))
    case SET_u3_HL(u3) => (Store(s, AddrHL(s), WithBit8(AtHL(s), u3, true)), Some(2))
  }

  /** `Exec` for the stack, jump, interrupt-enable and carry-flag procedures and NOP. */
  function ExecControl(p: Proc, s: Machine): (Machine, Option<MCycles>)
    requires IsControl(p)
  {
    match p
    case POP_r16(rr) => (PopInto(s, Reg16(rr)), Some(0))
    case PUSH_r16(rr) => (PushWord(s, Get(s, Reg16(rr))), Some(0))
    case DI => (s.(ime := 0), Some(0))
    // unlike the hardware, which enables interrupts one instruction later
    case EI => (s.(ime := 1), Some(0))
    case CALL => (Call(s), None)
    case JP_HL => (Put(s, Reg16(PC), AddrHL(s)), Some(0))
    case JP_n16 => (Put(s, Reg16(PC), Imm16(s)), Some(0))
    case RET => (PopInto(s, Reg16(PC)), Some(0))
    case NOP => (s, Some(0))
    case CCF => (ComplementCarry(s), Some(0))
    case SCF => (SetCarry(s), Some(0))
  }

  /** `Exec` for the loads into registers. */
  function ExecLoad(p: Proc, s: Machine): (Machine, Option<MCycles>)
    requires IsLoad(p)
  {
    match p
    case LD_r8_r8(d, r) => (Put(s, Reg8(d), s.regs.Get8(r)), Some(0))
    case LD_r8_n8(r) => (Advance(Put(s, Reg8(r), Imm8(s)), 1), Some(2))
    case LD_r16_n16(rr) => (Advance(Put(s, Reg16(rr), Imm16(s)), 2), Some(2))
    case LD_SP_n16 => (Advance(Put(s, Reg16(SP), Imm16(s)), 2), Some(2))
    case LD_A_r16(rr) => (Put(s, Reg8(R8.A), s.mem[Get(s, Reg16(rr))]), Some(1))
    case LD_r8_HL(r) => (Put(s, Reg8(r), AtHL(s)), Some(1))
    case LD_A_HLI => (Put(Put(s, Reg8(R8.A), AtHL(s)), Reg16(HL), AddrHL(s) + 1), Some(1))
    case LD_A_HLD => (Put(Put(s, Reg8(R8.A), AtHL(s)), Reg16(HL), AddrHL(s) - 1), Some(1))
    case LD_SP_HL => (Put(s, Reg16(SP), AddrHL(s)), Some(0))
    case LD_A_n16 => (LoadFromImm16(s), Some(2))
    case LD_HL_SP_E8 => (AddSpOffset(s), Some(3))
  }

  /** `Exec` for the loads into memory. */
  function ExecStore(p: Proc, s: Machine): (Machine, Option<MCycles>)
    requires IsStore(p)
  {
    match p
    case LD_r16_A(rr) => (Store(s, Get(s, Reg16(rr)), s.regs.a), Some(2))
    case LD_HL_r8(r) => (Store(s, AddrHL(s), s.regs.Get8(r)), Some(0))
    case LD_HL_n8 => (Advance(Store(s, AddrHL(s), Imm8(s)), 1), Some(1))
    case LD_HLI_A => (Put(Store(s, AddrHL(s), s.regs.a), Reg16(HL), AddrHL(s) + 1), Some(1))
    case LD_HLD_A => (Put(Store(s, AddrHL(s), s.regs.a), Reg16(HL), AddrHL(s) - 1), Some(0))
    case LD_n16_SP => (Advance(s.(mem := Write16(s.mem, Imm16(s), s.regs.sp)), 2), Some(2))
    case LD_n16_A =>
      // `write16` of A: the byte after n16 receives A >> 8, which is 0, unlike
      // the hardware, which writes the one byte at n16
      (Advance(s.(mem := Write16(s.mem, Imm16(s), s.regs.a)), 2), Some(2))
    case LDH_n16_A => (Store(Advance(s, 1), 0xFF00 + Imm8(s), s.regs.a), Some(3))
  }

  /**
   * The state after a procedure and the machine cycles it returns; CALL
   * returns nothing (`None`).
   */
  function Exec(p: Proc, s: Machine): (Machine, Option<MCycles>) {
    if IsArithmetic(p) then ExecArithmetic(p, s)
    else if IsLogic(p) then ExecLogic(p, s)
    else if IsBitOp(p) then ExecBitOps(p, s)
    else if IsControl(p) then ExecControl(p, s)
    else if IsLoad(p) then ExecLoad(p, s)
    else ExecStore(p, s)
  }
}
