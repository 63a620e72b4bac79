/*
 * The second engine: a `CPU` whose `execInstruction` is one explicit switch
 * from opcode to instruction, with every 0xCB-prefixed opcode a no-op. The
 * instructions it names behave as the procedures of `Semantics`; the switch
 * itself is `Decode`, and the lemmas read its layout off the opcode grid.
 */
module Decoder {
  import opened Wrappers
  import opened Bytes
  import opened Registers
  import opened AddressSpace
  import opened CpuCore
  import opened Semantics
  import opened InstructionProcs
  import opened InstructionFacts
  import opened Engine

  /** `Unknown opcode`, thrown by the switch's default case. */
  datatype DecodeError = UnknownOpcode

  /** `execInstruction`'s switch: the instruction each listed opcode runs. */
  function Decode(op: Byte): Result<Proc, DecodeError> {
    match op
    case 0x00 => Success(NOP)
    case 0x40 => Success(NOP)
    case 0x49 => Success(NOP)
    case 0x52 => Success(NOP)
    case 0x5B => Success(NOP)
    case 0x64 => Success(NOP)
    case 0x6D => Success(NOP)
    case 0x7F => Success(NOP)
    case 0x01 => Success(LD_r16_n16(BC))
    case 0x02 => Success(LD_r16_A(BC))
    case 0x06 => Success(LD_r8_n8(R8.B))
    case 0x08 => Success(LD_n16_SP)
    case 0x0A => Success(LD_A_r16(BC))
    case 0x0E => Success(LD_r8_n8(R8.C))
    case 0x11 => Success(LD_r16_n16(DE))
    case 0x12 => Success(LD_r16_A(DE))
    case 0x16 => Success(LD_r8_n8(R8.D))
    case 0x1A => Success(LD_A_r16(DE))
    case 0x1E => Success(LD_r8_n8(R8.E))
    case 0x21 => Success(LD_r16_n16(HL))
    case 0x22 => Success(LD_HLI_A)
    case 0x26 => Success(LD_r8_n8(R8.H))
    case 0x2A => Success(LD_A_HLI)
    case 0x2E => Success(LD_r8_n8(R8.L))
    case 0x31 => Success(LD_SP_n16)
    case 0x32 => Success(LD_HLD_A)
    case 0x36 => Success(LD_HL_n8)
    case 0x3A => Success(LD_A_HLD)
    case 0x3E => Success(LD_r8_n8(R8.A))
    case 0x41 => Success(LD_r8_r8(R8.B, R8.C))
    case 0x42 => Success(LD_r8_r8(R8.B, R8.D))
    case 0x43 => Success(LD_r8_r8(R8.B, R8.E))
    case 0x44 => Success(LD_r8_r8(R8.B, R8.H))
    case 0x45 => Success(LD_r8_r8(R8.B, R8.L))
    case 0x46 => Success(LD_r8_HL(R8.B))
    case 0x47 => Success(LD_r8_r8(R8.B, R8.A))
    case 0x48 => Success(LD_r8_r8(R8.C, R8.B))
    case 0x4A => Success(LD_r8_r8(R8.C, R8.D))
    case 0x4B => Success(LD_r8_r8(R8.C, R8.E))
    case 0x4C => Success(LD_r8_r8(R8.C, R8.H))
    case 0x4D => Success(LD_r8_r8(R8.C, R8.L))
    case 0x4E => Success(LD_r8_HL(R8.C))
    case 0x4F => Success(LD_r8_r8(R8.C, R8.A))
    case 0x50 => Success(LD_r8_r8(R8.D, R8.B))
    case 0x51 => Success(LD_r8_r8(R8.D, R8.C))
    case 0x53 => Success(LD_r8_r8(R8.D, R8.E))
    case 0x54 => Success(LD_r8_r8(R8.D, R8.H))
    case 0x55 => Success(LD_r8_r8(R8.D, R8.L))
    case 0x56 => Success(LD_r8_HL(R8.D))
    case 0x57 => Success(LD_r8_r8(R8.D, R8.A))
    case 0x58 => Success(LD_r8_r8(R8.E, R8.B))
    case 0x59 => Success(LD_r8_r8(R8.E, R8.C))
    case 0x5A => Success(LD_r8_r8(R8.E, R8.D))
    case 0x5C => Success(LD_r8_r8(R8.E, R8.H))
    case 0x5D => Success(LD_r8_r8(R8.E, R8.L))
    case 0x5E => Success(LD_r8_HL(R8.E))
    case 0x5F => Success(LD_r8_r8(R8.E, R8.A))
    case 0x60 => Success(LD_r8_r8(R8.H, R8.B))
    case 0x61 => Success(LD_r8_r8(R8.H, R8.C))
    case 0x62 => Success(LD_r8_r8(R8.H, R8.D))
    case 0x63 => Success(LD_r8_r8(R8.H, R8.E))
    case 0x65 => Success(LD_r8_r8(R8.H, R8.L))
    case 0x66 => Success(LD_r8_HL(R8.H))
    case 0x67 => Success(LD_r8_r8(R8.H, R8.A))
    case 0x68 => Success(LD_r8_r8(R8.L, R8.B))
    case 0x69 => Success(LD_r8_r8(R8.L, R8.C))
    case 0x6A => Success(LD_r8_r8(R8.L, R8.D))
    case 0x6B => Success(LD_r8_r8(R8.L, R8.E))
    case 0x6C => Success(LD_r8_r8(R8.L, R8.H))
    case 0x6E => Success(LD_r8_HL(R8.L))
    case 0x6F => Success(LD_r8_r8(R8.L, R8.A))
    case 0x70 => Success(LD_HL_r8(R8.B))
    case 0x71 => Success(LD_HL_r8(R8.C))
    case 0x72 => Success(LD_HL_r8(R8.D))
    case 0x73 => Success(LD_HL_r8(R8.E))
    case 0x74 => Success(LD_HL_r8(R8.H))
    case 0x75 => Success(LD_HL_r8(R8.L))
    case 0x77 => Success(LD_HL_r8(R8.A))
    case 0x78 => Success(LD_r8_r8(R8.A, R8.B))
    case 0x79 => Success(LD_r8_r8(R8.A, R8.C))
    case 0x7A => Success(LD_r8_r8(R8.A, R8.D))
    case 0x7B => Success(LD_r8_r8(R8.A, R8.E))
    case 0x7C => Success(LD_r8_r8(R8.A, R8.H))
    case 0x7D => Success(LD_r8_r8(R8.A, R8.L))
    case 0x7E => Success(LD_r8_HL(R8.A))
    case 0x80 => Success(ADD_A_r8(R8.B))
    case 0x81 => Success(ADD_A_r8(R8.C))
    case 0x82 => Success(ADD_A_r8(R8.D))
    case 0x83 => Success(ADD_A_r8(R8.E))
    case 0x84 => Success(ADD_A_r8(R8.H))
    case 0x85 => Success(ADD_A_r8(R8.L))
    case 0x86 => Success(ADD_A_HL)
    case 0x87 => Success(ADD_A_r8(R8.A))
    case 0x90 => Success(SUB_A_r8(R8.B))
    case 0x91 => Success(SUB_A_r8(R8.C))
    case 0x92 => Success(SUB_A_r8(R8.D))
    case 0x93 => Success(SUB_A_r8(R8.E))
    case 0x94 => Success(SUB_A_r8(R8.H))
    case 0x95 => Success(SUB_A_r8(R8.L))
    case 0x96 => Success(SUB_A_HL)
    case 0x97 => Success(SUB_A_r8(R8.A))
    case 0xA0 => Success(AND_A_r8(R8.B))
    case 0xA1 => Success(AND_A_r8(R8.C))
    case 0xA2 => Success(AND_A_r8(R8.D))
    case 0xA3 => Success(AND_A_r8(R8.E))
    case 0xA4 => Success(AND_A_r8(R8.H))
    case 0xA5 => Success(AND_A_r8(R8.L))
    case 0xA6 => Success(AND_A_HL)
    case 0xA7 => Success(AND_A_r8(R8.A))
    case 0xA8 => Success(XOR_A_r8(R8.B))
    case 0xA9 => Success(XOR_A_r8(R8.C))
    case 0xAA => Success(XOR_A_r8(R8.D))
    case 0xAB => Success(XOR_A_r8(R8.E))
    case 0xAC => Success(XOR_A_r8(R8.H))
    case 0xAD => Success(XOR_A_r8(R8.L))
    case 0xAE => Success(XOR_A_HL)
    case 0xAF => Success(XOR_A_r8(R8.A))
    case 0xB0 => Success(OR_A_r8(R8.B))
    case 0xB1 => Success(OR_A_r8(R8.C))
    case 0xB2 => Success(OR_A_r8(R8.D))
    case 0xB3 => Success(OR_A_r8(R8.E))
    case 0xB4 => Success(OR_A_r8(R8.H))
    case 0xB5 => Success(OR_A_r8(R8.L))
    case 0xB6 => Success(OR_A_HL)
    case 0xB7 => Success(OR_A_r8(R8.A))
    case 0xB8 => Success(CP_A_r8(R8.B))
    case 0xB9 => Success(CP_A_r8(R8.C))
    case 0xBA => Success(CP_A_r8(R8.D))
    case 0xBB => Success(CP_A_r8(R8.E))
    case 0xBC => Success(CP_A_r8(R8.H))
    case 0xBD => Success(CP_A_r8(R8.L))
    case 0xBE => Success(CP_A_HL)
    case 0xBF => Success(CP_A_r8(R8.A))
    case 0xC6 => Success(ADD_A_n8)
    case 0xD6 => Success(SUB_A_n8)
    case 0xE6 => Success(AND_A_n8)
    case 0xEA => Success(LD_n16_A)
    case 0xEE => Success(XOR_A_n8)
    case 0xF6 => Success(OR_A_n8)
    case 0xF8 => Success(LD_HL_SP_E8)
    case 0xF9 => Success(LD_SP_HL)
    case 0xFA => Success(LD_A_n16)
    case 0xFE => Success(CP_A_n8)
    case _ => Failure(UnknownOpcode)
  }

  // The layout of the switch on the opcode grid.

  /** Grid index 0..7 as an operand: B, C, D, E, H, L, [HL], A. */
  function GridOperand(i: int): Operand
    requires 0 <= i < 8
  {
    match i
    case 0 => FromReg(R8.B)
    case 1 => FromReg(R8.C)
    case 2 => FromReg(R8.D)
    case 3 => FromReg(R8.E)
    case 4 => FromReg(R8.H)
    case 5 => FromReg(R8.L)
    case 6 => FromHL
    case _ => FromReg(R8.A)
  }

  /**
   * The load block 0x40-0x7F: destination `(op >> 3) & 7`, source `op & 7`.
   * [HL] to [HL] (0x76) is not there; a register loaded from itself is a
   * NOP.
   */
  function LoadBlock(op: Byte): Option<Proc>
    requires 0x40 <= op < 0x80
  {
    match (GridOperand((op / 8) % 8), GridOperand(op % 8))
    case (FromHL, FromHL) => None
    case (FromHL, FromReg(r)) => Some(LD_HL_r8(r))
    case (FromReg(r), FromHL) => Some(LD_r8_HL(r))
    case (FromReg(r), FromReg(q)) => Some(if r == q then NOP else LD_r8_r8(r, q))
    case (_, FromImm) => None
  }

  /** The operation of row k of the ALU block; ADC (1) and SBC (3) are missing. */
  function AluRow(k: int): Option<AluOp>
    requires 0 <= k < 8
  {
    match k
    case 0 => Some(AddOp)
    case 2 => Some(SubOp)
    case 4 => Some(AndOp)
    case 5 => Some(XorOp)
    case 6 => Some(OrOp)
    case 7 => Some(CpOp)
    case _ => None
  }

  /** The ALU block 0x80-0xBF: operation `(op >> 3) & 7`, operand `op & 7`. */
  function AluBlock(op: Byte): Option<Proc>
    requires 0x80 <= op < 0xC0
  {
    var row := AluRow((op / 8) % 8);
    if row.Some? then Some(AluProc(row.value, GridOperand(op % 8))) else None
  }

  /** An entry of the grid as the switch returns it. */
  function Entry(p: Option<Proc>): Result<Proc, DecodeError> {
    if p.Some? then Success(p.value) else Failure(UnknownOpcode)
  }

  /** Every opcode of 0x40-0x7F decodes as the load block lays it out. */
  lemma LoadGrid(op: Byte)
    requires 0x40 <= op < 0x80
    ensures Decode(op) == Entry(LoadBlock(op))
  {
    if op < 0x50 {
      LoadGridQuarter0(op);
    } else if op < 0x60 {
      LoadGridQuarter1(op);
    } else if op < 0x70 {
      LoadGridQuarter2(op);
    } else {
      LoadGridQuarter3(op);
    }
  }

  lemma LoadGridQuarter0(op: Byte)
    requires 0x40 <= op < 0x50
    ensures Decode(op) == Entry(LoadBlock(op))
  {
    var d, i := op / 8 % 8, op % 8;
    assert op == 0x40 + 8 * d + i;
  }

  lemma LoadGridQuarter1(op: Byte)
    requires 0x50 <= op < 0x60
    ensures Decode(op) == Entry(LoadBlock(op))
  {
    var d, i := op / 8 % 8, op % 8;
    assert op == 0x40 + 8 * d + i;
  }

  lemma LoadGridQuarter2(op: Byte)
    requires 0x60 <= op < 0x70
    ensures Decode(op) == Entry(LoadBlock(op))
  {
    var d, i := op / 8 % 8, op % 8;
    assert op == 0x40 + 8 * d + i;
  }

  lemma LoadGridQuarter3(op: Byte)
    requires 0x70 <= op < 0x80
    ensures Decode(op) == Entry(LoadBlock(op))
  {
    var d, i := op / 8 % 8, op % 8;
    assert op == 0x40 + 8 * d + i;
  }

  /**
   * Every opcode of 0x80-0xBF decodes as the ALU block lays it out: ADD,
   * SUB, AND, XOR, OR and CP on B, C, D, E, H, L, [HL], A; the ADC and SBC
   * rows are missing.
   */
  lemma AluGrid(op: Byte)
    requires 0x80 <= op < 0xC0
    ensures Decode(op) == Entry(AluBlock(op))
  {
    if op < 0x90 {
      AluGridQuarter0(op);
    } else if op < 0xA0 {
      AluGridQuarter1(op);
    } else if op < 0xB0 {
      AluGridQuarter2(op);
    } else {
      AluGridQuarter3(op);
    }
  }

  lemma AluGridQuarter0(op: Byte)
    requires 0x80 <= op < 0x90
    ensures Decode(op) == Entry(AluBlock(op))
  {
    var k, i := op / 8 % 8, op % 8;
    assert op == 0x80 + 8 * k + i;
  }

  lemma AluGridQuarter1(op: Byte)
    requires 0x90 <= op < 0xA0
    ensures Decode(op) == Entry(AluBlock(op))
  {
    var k, i := op / 8 % 8, op % 8;
    assert op == 0x80 + 8 * k + i;
  }

  lemma AluGridQuarter2(op: Byte)
    requires 0xA0 <= op < 0xB0
    ensures Decode(op) == Entry(AluBlock(op))
  {
    var k, i := op / 8 % 8, op % 8;
    assert op == 0x80 + 8 * k + i;
  }

  lemma AluGridQuarter3(op: Byte)
    requires 0xB0 <= op < 0xC0
    ensures Decode(op) == Entry(AluBlock(op))
  {
    var k, i := op / 8 % 8, op % 8;
    assert op == 0x80 + 8 * k + i;
  }

  /**
   * The n8 forms sit at 0xC6 + 8k with the same row order as the ALU block;
   * ADC n8 (0xCE) and SBC n8 (0xDE) are missing.
   */
  lemma ImmediateColumn(k: int)
    requires 0 <= k < 8
    ensures var row := AluRow(k);
      Decode(0xC6 + 8 * k) == Entry(if row.Some? then Some(AluProc(row.value, FromImm)) else None)
  {
  }

  /** The opcodes the switch lists outside the two blocks. */
  predicate ListedLow(op: Byte) {
    op in {0x00, 0x01, 0x02, 0x06, 0x08, 0x0A, 0x0E, 0x11, 0x12, 0x16, 0x1A, 0x1E,
           0x21, 0x22, 0x26, 0x2A, 0x2E, 0x31, 0x32, 0x36, 0x3A, 0x3E}
  }

  predicate ListedHigh(op: Byte) {
    op in {0xC6, 0xD6, 0xE6, 0xEA, 0xEE, 0xF6, 0xF8, 0xF9, 0xFA, 0xFE}
  }

  /** The opcodes `execInstruction` has a case for. */
  predicate Listed(op: Byte) {
    if op < 0x40 then ListedLow(op)
    else if op < 0x80 then op != 0x76
    else if op < 0xC0 then AluRow(op / 8 % 8).Some?
    else ListedHigh(op)
  }

  /** An opcode throws `Unknown opcode` exactly when the switch lists no case for it. */
  lemma UnknownOpcodes(op: Byte)
    ensures Decode(op).Failure? <==> !Listed(op)
  {
    if 0x40 <= op < 0x80 {
      LoadGrid(op);
    } else if 0x80 <= op < 0xC0 {
      AluGrid(op);
    }
  }

  /** The switch names no CALL, DI or EI. */
  lemma DecodesNoCallNorIme(op: Byte)
    requires Decode(op).Success?
    ensures Decode(op).value != CALL && Decode(op).value != DI && Decode(op).value != EI
  {
    if 0x40 <= op < 0x80 {
      LoadGrid(op);
    } else if 0x80 <= op < 0xC0 {
      AluGrid(op);
    }
  }

  /**
   * So every instruction the switch decodes returns machine cycles and leaves
   * IME alone.
   */
  lemma DecodedKeepsIme(op: Byte, s: Machine)
    requires Decode(op).Success?
    ensures Exec(Decode(op).value, s).1.Some?
    ensures Exec(Decode(op).value, s).0.ime == s.ime
  {
    var p := Decode(op).value;
    DecodesNoCallNorIme(op);
    CyclesExceptCall(p, s);
    ImeOnlyByDiEi(p, s);
  }

  /** A register loaded from itself changes nothing, so the NOPs on the diagonal lose nothing. */
  lemma SelfLoadIsNop(r: R8, s: Machine)
    ensures Exec(LD_r8_r8(r, r), s) == Exec(NOP, s)
  {
    LoadIsLoad(LD_r8_r8(r, r), s);
    ControlIsControl(NOP, s);
    assert s.regs.Set8(r, s.regs.Get8(r)) == s.regs;
  }

  /** The switch's instruction run on a state, or the error with nothing run. */
  function RunDecoded(op: Byte, s: Machine): (Machine, Result<Option<MCycles>, DecodeError>) {
    match Decode(op)
    case Failure(e) => (s, Failure(e))
    case Success(p) => (Exec(p, s).0, Success(Exec(p, s).1))
  }

  /** One `step` of the package CPU: what it leaves and the T-cycles it returns or the error it throws. */
  function PackageStepSpec(s: Machine): (Machine, Result<Option<nat>, DecodeError>) {
    var f := Fetch(s);
    if f.prefixed then (f.next, Success(Some(0)))
    else
      var (t, r) := RunDecoded(f.opcode, f.next);
      (t, if r.Success? then Success(TCycles(r.value)) else Failure(r.error))
  }

  /** `execPInstruction`: every prefixed opcode is a no-op of zero cycles. */
  method ExecPInstruction(cpu: Cpu, opcode: Byte) returns (m: MCycles)
    ensures m == 0
  {
    m := 0;
  }

  /** `execInstruction`: run the instruction the switch names, or throw `Unknown opcode`. */
  method ExecInstruction(cpu: Cpu, opcode: Byte) returns (r: Result<Option<MCycles>, DecodeError>)
    requires cpu.Valid()
    modifies cpu, cpu.bus.cells
    ensures (cpu.State(), r) == RunDecoded(opcode, old(cpu.State()))
  {
    var d := Decode(opcode);
    if d.Failure? {
      return Failure(d.error);
    }
    var m := Execute(cpu, d.value);
    return Success(m);
  }

  /** `CPU.step`: fetch, follow the prefix, run, and return four times the machine cycles. */
  method PackageStep(cpu: Cpu) returns (r: Result<Option<nat>, DecodeError>)
    requires cpu.Valid()
    modifies cpu, cpu.bus.cells
    ensures (cpu.State(), r) == PackageStepSpec(old(cpu.State()))
  {
    ghost var s0 := cpu.State();
    var opcode := cpu.bus.Read(cpu.PC);
    cpu.SetReg(Reg16(PC), cpu.GetReg(Reg16(PC)) + 1);
    if opcode == Prefix {
      opcode := cpu.bus.Read(cpu.PC);
      cpu.SetReg(Reg16(PC), cpu.GetReg(Reg16(PC)) + 1);
      assert cpu.State() == Fetch(s0).next;
      var m := ExecPInstruction(cpu, opcode);
      return Success(Some(4 * m));
    }
    assert cpu.State() == Fetch(s0).next;
    var m := ExecInstruction(cpu, opcode);
    if m.Failure? {
      return Failure(m.error);
    }
    return Success(TCycles(m.value));
  }

  /** After 0xCB the step only moves PC past both bytes and returns zero cycles. */
  lemma PrefixedStepSkips(s: Machine)
    requires s.mem[s.regs.pc] == Prefix
    ensures PackageStepSpec(s) == (s.(regs := s.regs.(pc := (s.regs.pc + 2) % 0x1_0000)), Success(Some(0)))
  {
  }

  /** The NOP opcodes, the diagonal loads among them, only move PC past the opcode. */
  lemma NopOpcodesSkip(s: Machine)
    requires s.mem[s.regs.pc] in {0x00, 0x40, 0x49, 0x52, 0x5B, 0x64, 0x6D, 0x7F}
    ensures PackageStepSpec(s) == (s.(regs := s.regs.(pc := (s.regs.pc + 1) % 0x1_0000)), Success(Some(0)))
  {
    var f := Fetch(s);
    ControlIsControl(NOP, f.next);
  }

  /**
   * A step throws exactly for an unprefixed opcode the switch does not list,
   * and then has only moved PC past it; otherwise it returns a number of
   * T-cycles (never NaN) and leaves IME alone.
   */
  lemma PackageStepOutcome(s: Machine)
    ensures var f := Fetch(s);
      PackageStepSpec(s).1.Failure? <==> !f.prefixed && !Listed(f.opcode)
    ensures var f := Fetch(s);
      PackageStepSpec(s).1.Failure? ==> PackageStepSpec(s).0 == f.next
    ensures PackageStepSpec(s).1.Success? ==> PackageStepSpec(s).1.value.Some?
    ensures PackageStepSpec(s).0.ime == s.ime
  {
    var f := Fetch(s);
    UnknownOpcodes(f.opcode);
    if !f.prefixed && Decode(f.opcode).Success? {
      DecodedKeepsIme(f.opcode, f.next);
    }
  }
}
