/*
 * The Go engine's `SM83`: a `Registers` struct of Go bytes and 16-bit
 * words, the register accessors, the flag writer, the condition check and
 * the NOP and JP cases of `Execute`. Fetching the opcode and its operand is
 * not part of this model; `Data` and the current instruction are fields that
 * the fetch would have filled in.
 */
module GoCore {
  import opened Wrappers
  import opened Bytes
  import opened GoBits
  import Registers

  /** `RegisterKind`: the registers, and `RK_NONE`. */
  datatype RegisterKind = NoReg | A | F | B | C | D | E | H | L | AF | BC | DE | HL | SP | PC

  /**
   * `ConditionKind`: `CK_NONE` (always), the four flag tests, and `Unset` for
   * any other string. `Unset` is reached in the program: the zero value `""`
   * of the string type is none of the constants, and the `InstructionMap`
   * entry of 0xE9 (JP HL) leaves its condition at that zero value.
   */
  datatype ConditionKind = Always | IfNZ | IfZ | IfNC | IfC | Unset

  /** A condition that tests one flag of F. */
  predicate TestsFlag(ck: ConditionKind) {
    !ck.Always? && !ck.Unset?
  }

  /** `InstructionKind`: the two kinds `Execute` knows. */
  datatype InstructionKind = Nop | Jp

  /** The part of `Instruction` that `Execute` reads. */
  datatype Instruction = Instruction(ik: InstructionKind, ck: ConditionKind)

  /** The `Registers` struct. */
  datatype RegisterFile = RegisterFile(
    a: Byte, f: Byte, b: Byte, c: Byte, d: Byte, e: Byte, h: Byte, l: Byte, pc: Word, sp: Word)

  /** `PrintAndDie("Unknown register ...")`: the process exits. */
  datatype Fault = UnknownRegister

  predicate IsByteKind(rk: RegisterKind) {
    rk in {A, F, B, C, D, E, H, L}
  }

  predicate IsPair(rk: RegisterKind) {
    rk in {AF, BC, DE, HL}
  }

  /** The 8-bit register a byte kind names. */
  function Get8(r: RegisterFile, rk: RegisterKind): Byte
    requires IsByteKind(rk)
  {
    match rk
    case A => r.a
    case F => r.f
    case B => r.b
    case C => r.c
    case D => r.d
    case E => r.e
    case H => r.h
    case L => r.l
  }

  /** A byte kind's register replaced by v. */
  function Set8(r: RegisterFile, rk: RegisterKind, v: Byte): (r': RegisterFile)
    requires IsByteKind(rk)
    ensures Get8(r', rk) == v
    ensures forall k :: IsByteKind(k) && k != rk ==> Get8(r', k) == Get8(r, k)
    ensures r'.pc == r.pc && r'.sp == r.sp
  {
    match rk
    case A => r.(a := v)
    case F => r.(f := v)
    case B => r.(b := v)
    case C => r.(c := v)
    case D => r.(d := v)
    case E => r.(e := v)
    case H => r.(h := v)
    case L => r.(l := v)
  }

  /** The two registers of a pair, named first to second: AF is A then F. */
  function Halves(rk: RegisterKind): (hl: (RegisterKind, RegisterKind))
    requires IsPair(rk)
    ensures IsByteKind(hl.0) && IsByteKind(hl.1) && hl.0 != hl.1
  {
    match rk
    case AF => (A, F)
    case BC => (B, C)
    case DE => (D, E)
    case HL => (H, L)
  }

  /**
   * `ReadRegister`: a byte register widened, SP and PC as they are, and a
   * pair with its first register in the high byte; `RK_NONE` exits. For two
   * bytes `uint16(hi) << 8 | uint16(lo)` is `hi * 256 + lo`.
   */
  function ReadRegister(r: RegisterFile, rk: RegisterKind): (v: Result<Word, Fault>)
    ensures v.Failure? <==> rk == NoReg
    ensures IsByteKind(rk) ==> v.value == Get8(r, rk)
    ensures IsPair(rk) ==>
      v.value / 0x100 == Get8(r, Halves(rk).0) && v.value % 0x100 == Get8(r, Halves(rk).1)
    ensures rk == SP ==> v.value == r.sp
    ensures rk == PC ==> v.value == r.pc
  {
    match rk
    case NoReg => Failure(UnknownRegister)
    case SP => Success(r.sp)
    case PC => Success(r.pc)
    case AF => Success(r.a * 0x100 + r.f)
    case BC => Success(r.b * 0x100 + r.c)
    case DE => Success(r.d * 0x100 + r.e)
    case HL => Success(r.h * 0x100 + r.l)
    case _ => Success(Get8(r, rk))
  }

  /**
   * `SetRegister` as written: a byte register takes `value & 0xFF`, SP and
   * PC the whole value, and a pair puts the LOW byte (`uint8(value)`) in its
   * first register and the high byte (`uint8(value >> 8)`) in its second.
   */
  function SetRegisterAsWritten(r: RegisterFile, rk: RegisterKind, value: Word): (res: Result<RegisterFile, Fault>)
    ensures res.Failure? <==> rk == NoReg
    ensures IsPair(rk) ==>
      Get8(res.value, Halves(rk).0) == value % 0x100 && Get8(res.value, Halves(rk).1) == value / 0x100
  {
    match rk
    case NoReg => Failure(UnknownRegister)
    case SP => Success(r.(sp := value))
    case PC => Success(r.(pc := value))
    case AF => Success(r.(a := value % 0x100, f := value / 0x100))
    case BC => Success(r.(b := value % 0x100, c := value / 0x100))
    case DE => Success(r.(d := value % 0x100, e := value / 0x100))
    case HL => Success(r.(h := value % 0x100, l := value / 0x100))
    case _ => Success(Set8(r, rk, value % 0x100))
  }

  /** The pair write as written does not read back: HL := 0x1234 reads 0x3412. */
  lemma PairWriteSwapsBytes(r: RegisterFile)
    ensures ReadRegister(SetRegisterAsWritten(r, HL, 0x1234).value, HL).value == 0x3412
  {
  }

  /**
   * `SetRegister` with the pair cases in `ReadRegister`'s order: the high
   * byte goes to the first register. Everything else is as written.
   */
  function SetRegisterCorrected(r: RegisterFile, rk: RegisterKind, value: Word): (res: Result<RegisterFile, Fault>)
    ensures res.Failure? <==> rk == NoReg
    ensures !IsPair(rk) ==> res == SetRegisterAsWritten(r, rk, value)
  {
    match rk
    case AF => Success(r.(a := value / 0x100, f := value % 0x100))
    case BC => Success(r.(b := value / 0x100, c := value % 0x100))
    case DE => Success(r.(d := value / 0x100, e := value % 0x100))
    case HL => Success(r.(h := value / 0x100, l := value % 0x100))
    case _ => SetRegisterAsWritten(r, rk, value)
  }

  /**
   * A write reads back: the low byte for a byte register, the whole value
   * for SP, PC and, with the corrected order, for a pair.
   */
  lemma ReadAfterSetRegister(r: RegisterFile, rk: RegisterKind, value: Word)
    requires rk != NoReg
    ensures ReadRegister(SetRegisterCorrected(r, rk, value).value, rk).value ==
      if IsByteKind(rk) then value % 0x100 else value
  {
    var r' := SetRegisterCorrected(r, rk, value).value;
    if IsByteKind(rk) {
      assert r' == Set8(r, rk, value % 0x100);
    }
  }

  /** A byte write leaves every other register, SP and PC alone. */
  lemma SetByteKeepsOthers(r: RegisterFile, rk: RegisterKind, value: Word, other: RegisterKind)
    requires IsByteKind(rk) && IsByteKind(other) && other != rk
    ensures Get8(SetRegisterCorrected(r, rk, value).value, other) == Get8(r, other)
    ensures SetRegisterCorrected(r, rk, value).value.pc == r.pc
    ensures SetRegisterCorrected(r, rk, value).value.sp == r.sp
  {
  }

  /** The Go and TypeScript register files hold the same numbers. */
  function AsRegs(r: RegisterFile): Registers.Regs {
    Registers.Regs(r.a, r.f, r.b, r.c, r.d, r.e, r.h, r.l, r.sp, r.pc)
  }

  /** The TypeScript name of a Go register kind. */
  function AsReg(rk: RegisterKind): Registers.Reg
    requires rk != NoReg
  {
    match rk
    case A => Registers.Reg8(Registers.R8.A)
    case F => Registers.Reg8(Registers.R8.F)
    case B => Registers.Reg8(Registers.R8.B)
    case C => Registers.Reg8(Registers.R8.C)
    case D => Registers.Reg8(Registers.R8.D)
    case E => Registers.Reg8(Registers.R8.E)
    case H => Registers.Reg8(Registers.R8.H)
    case L => Registers.Reg8(Registers.R8.L)
    case AF => Registers.Reg16(Registers.AF)
    case BC => Registers.Reg16(Registers.BC)
    case DE => Registers.Reg16(Registers.DE)
    case HL => Registers.Reg16(Registers.HL)
    case SP => Registers.Reg16(Registers.SP)
    case PC => Registers.Reg16(Registers.PC)
  }

  /** `ReadRegister` returns the number the TypeScript `get_reg` returns for the same registers. */
  lemma ReadRegisterAgrees(r: RegisterFile, rk: RegisterKind)
    requires rk != NoReg
    ensures ReadRegister(r, rk).value == Registers.Read(AsRegs(r), AsReg(rk))
  {
  }

  /**
   * With the corrected pair order, `SetRegister` writes what the TypeScript
   * `set_reg` writes for a value in range; as written, it does not for a pair
   * whose two bytes differ.
   */
  lemma SetRegisterAgrees(r: RegisterFile, rk: RegisterKind, value: Word)
    requires rk != NoReg
    ensures AsRegs(SetRegisterCorrected(r, rk, value).value) == Registers.Write(AsRegs(r), AsReg(rk), value)
    ensures IsPair(rk) && value / 0x100 != value % 0x100 ==>
      AsRegs(SetRegisterAsWritten(r, rk, value).value) != Registers.Write(AsRegs(r), AsReg(rk), value)
  {
    if IsPair(rk) {
      var w := Registers.Write(AsRegs(r), AsReg(rk), value);
      var (hi, lo) := Halves(rk);
      Registers.PairWriteHalves(AsRegs(r), AsReg(rk).r16, value);
    }
  }

  /**
   * `CheckCondition`: CK_NONE always, C/NC on bit 4 of F, Z/NZ on bit 7,
   * and false in the default branch.
   */
  predicate CheckCondition(f: Byte, ck: ConditionKind) {
    var flagZ := GetNthBit(f, 7);
    var flagC := GetNthBit(f, 4);
    match ck
    case Always => true
    case IfC => flagC
    case IfNC => !flagC
    case IfZ => flagZ
    case IfNZ => !flagZ
    case Unset => false
  }

  /** The TypeScript condition a flag test stands for. */
  function AsCond(ck: ConditionKind): Registers.Cond
    requires TestsFlag(ck)
  {
    match ck
    case IfC => Registers.Cond.C
    case IfNC => Registers.Cond.NC
    case IfZ => Registers.Cond.Z
    case IfNZ => Registers.Cond.NZ
  }

  /** The Go condition check agrees with the TypeScript one on the same F. */
  lemma CheckConditionAgrees(f: Byte, ck: ConditionKind)
    ensures ck == Always ==> CheckCondition(f, ck)
    ensures ck == Unset ==> !CheckCondition(f, ck)
    ensures TestsFlag(ck) ==> (CheckCondition(f, ck) <==> Registers.Holds(f, AsCond(ck)))
  {
    GetNthBitIsBit(f, 7);
    GetNthBitIsBit(f, 4);
  }

  /** F after the `WriteFlags` entries from index k up to 3 (the loop runs 3 down to 0). */
  function FlagsFrom(f: Byte, bits: seq<int>, k: nat): Byte
    requires |bits| == 4 && k <= 4
    decreases 4 - k
  {
    if k == 4 then f
    else
      var g := FlagsFrom(f, bits, k + 1);
      if bits[k] != -1 then SetNthBit(g, 7 - k, bits[k] > 0) else g
  }

  /** F after `WriteFlags(bits)`. */
  function WrittenFlags(f: Byte, bits: seq<int>): Byte
    requires |bits| == 4
  {
    FlagsFrom(f, bits, 0)
  }

  /**
   * The entries from k on have been written: entry i (z, n, h, c for i = 0..3)
   * decides bit 7 - i unless it is -1, and every other bit is as before.
   */
  lemma {:induction false} FlagsFromBits(f: Byte, bits: seq<int>, k: nat, j: nat)
    requires |bits| == 4 && k <= 4
    ensures GetNthBit(FlagsFrom(f, bits, k), j) ==
      if 4 <= j < 8 && k <= 7 - j && bits[7 - j] != -1 then bits[7 - j] > 0 else GetNthBit(f, j)
    decreases 4 - k
  {
    if k < 4 {
      var g := FlagsFrom(f, bits, k + 1);
      FlagsFromBits(f, bits, k + 1, j);
      if bits[k] != -1 {
        SetNthBitBits(g, 7 - k, bits[k] > 0, j);
      }
    }
  }

  /**
   * `WriteFlags` maps z, n, h, c to bits 7, 6, 5, 4 of F: a positive entry
   * sets its bit, 0 (or another non-positive entry) clears it, -1 keeps it;
   * bits 0..3 never change.
   */
  lemma WriteFlagsBits(f: Byte, bits: seq<int>)
    requires |bits| == 4
    ensures forall i :: 0 <= i < 4 ==>
      GetNthBit(WrittenFlags(f, bits), 7 - i) == if bits[i] == -1 then GetNthBit(f, 7 - i) else bits[i] > 0
    ensures forall j: nat :: j < 4 ==> GetNthBit(WrittenFlags(f, bits), j) == GetNthBit(f, j)
  {
    forall i | 0 <= i < 4
      ensures GetNthBit(WrittenFlags(f, bits), 7 - i) == if bits[i] == -1 then GetNthBit(f, 7 - i) else bits[i] > 0
    {
      FlagsFromBits(f, bits, 0, 7 - i);
    }
    forall j: nat | j < 4
      ensures GetNthBit(WrittenFlags(f, bits), j) == GetNthBit(f, j)
    {
      FlagsFromBits(f, bits, 0, j);
    }
  }

  /** The TypeScript flags the four entries stand for when none of them is -1. */
  function EntryFlags(bits: seq<int>): Registers.Flags
    requires |bits| == 4
  {
    Registers.Flags(bits[0] > 0, bits[1] > 0, bits[2] > 0, bits[3] > 0)
  }

  /** One bit of F after `WriteFlags`, against the same bit of the packed flags. */
  lemma WrittenBitPacked(f: Byte, bits: seq<int>, k: BitIndex)
    requires |bits| == 4 && forall i :: 0 <= i < 4 ==> bits[i] != -1
    requires f % 0x10 == 0
    ensures Bit(WrittenFlags(f, bits), k) == Bit(Registers.Pack(EntryFlags(bits)), k)
  {
    GetNthBitIsBit(WrittenFlags(f, bits), k);
    FlagsFromBits(f, bits, 0, k);
    if k < 4 {
      Registers.PackLowBits(EntryFlags(bits), k);
      GetNthBitIsBit(f, k);
      Widths();
      assert f == Pow2(4) * (f / 0x10) + 0;
      BitSplit(f / 0x10, 0, 4, k);
      ZeroBits(k);
    } else {
      Registers.PackUnpack(EntryFlags(bits));
    }
  }

  /**
   * With no -1 entry, on an F whose low nibble is clear, `WriteFlags` stores
   * the byte the TypeScript engine packs from the same four flags.
   */
  lemma WriteFlagsPacks(f: Byte, bits: seq<int>)
    requires |bits| == 4 && forall i :: 0 <= i < 4 ==> bits[i] != -1
    requires f % 0x10 == 0
    ensures WrittenFlags(f, bits) == Registers.Pack(EntryFlags(bits))
  {
    forall k: nat | k < 8
      ensures Bit(WrittenFlags(f, bits), k) == Bit(Registers.Pack(EntryFlags(bits)), k)
    {
      WrittenBitPacked(f, bits, k);
    }
    ByteWidth();
    BitsDetermine(WrittenFlags(f, bits), Registers.Pack(EntryFlags(bits)), 8);
  }

  /** The effect of `Execute` on the registers, given `Data` and the current instruction. */
  function Executed(r: RegisterFile, data: Word, instr: Instruction): (r': RegisterFile)
    ensures r' == r.(pc := r'.pc)
  {
    match instr.ik
    case Nop => r.(pc := (r.pc + 1) % 0x1_0000)
    case Jp => if CheckCondition(r.f, instr.ck) then r.(pc := data) else r.(pc := (r.pc + 1) % 0x1_0000)
  }

  /** The cycles `Execute` adds: 4 for NOP and for a taken jump, none for a jump not taken. */
  function ExecutedCycles(r: RegisterFile, instr: Instruction): nat {
    match instr.ik
    case Nop => 4
    case Jp => if CheckCondition(r.f, instr.ck) then 4 else 0
  }

  /**
   * JP lands on `Data` exactly when its condition holds on F (always for
   * CK_NONE, never for an unset condition such as JP HL's), and otherwise
   * steps PC by one, wrapping at 0xFFFF; it adds four cycles only when taken.
   * So the program's JP HL only steps PC by one.
   */
  lemma JumpLanding(r: RegisterFile, data: Word, ck: ConditionKind)
    ensures var r' := Executed(r, data, Instruction(Jp, ck));
      ck == Always ==> r'.pc == data
    ensures var r' := Executed(r, data, Instruction(Jp, ck));
      ck == Unset ==> r'.pc == (r.pc + 1) % 0x1_0000
    ensures var r' := Executed(r, data, Instruction(Jp, ck));
      TestsFlag(ck) ==>
        r'.pc == (if Registers.Holds(r.f, AsCond(ck)) then data else (r.pc + 1) % 0x1_0000)
    ensures ExecutedCycles(r, Instruction(Jp, ck)) == 4 <==> CheckCondition(r.f, ck)
  {
    CheckConditionAgrees(r.f, ck);
  }

  /** The `SM83` struct. */
  class Sm83 {
    var Cycles: int
    var Data: Word
    var CurrentInstruction: Instruction
    var Registers: RegisterFile

    constructor(regs: RegisterFile)
      ensures Registers == regs && Cycles == 0 && Data == 0
    {
      Cycles := 0;
      Data := 0;
      CurrentInstruction := Instruction(Nop, Always);
      Registers := regs;
    }

    /** `SetRegister`, with the pair order of `ReadRegister`; `RK_NONE` exits and changes nothing. */
    method SetRegister(rk: RegisterKind, value: Word) returns (ok: bool)
      modifies this
      ensures ok <==> rk != NoReg
      ensures ok ==> Registers == SetRegisterCorrected(old(Registers), rk, value).value
      ensures !ok ==> Registers == old(Registers)
      ensures Cycles == old(Cycles) && Data == old(Data) && CurrentInstruction == old(CurrentInstruction)
    {
      match rk {
        case NoReg => return false;
        case A => Registers := Registers.(a := value % 0x100);
        case F => Registers := Registers.(f := value % 0x100);
        case B => Registers := Registers.(b := value % 0x100);
        case C => Registers := Registers.(c := value % 0x100);
        case D => Registers := Registers.(d := value % 0x100);
        case E => Registers := Registers.(e := value % 0x100);
        case H => Registers := Registers.(h := value % 0x100);
        case L => Registers := Registers.(l := value % 0x100);
        case SP => Registers := Registers.(sp := value);
        case PC => Registers := Registers.(pc := value);
        case AF => Registers := Registers.(a := value / 0x100, f := value % 0x100);
        case BC => Registers := Registers.(b := value / 0x100, c := value % 0x100);
        case DE => Registers := Registers.(d := value / 0x100, e := value % 0x100);
        case HL => Registers := Registers.(h := value / 0x100, l := value % 0x100);
      }
      return true;
    }

    /** `WriteFlags(bits)`: entries 3 down to 0 each force their bit of F unless -1. */
    method WriteFlags(bits: seq<int>)
      requires |bits| == 4
      modifies this
      ensures Registers == old(Registers).(f := WrittenFlags(old(Registers).f, bits))
      ensures Cycles == old(Cycles) && Data == old(Data) && CurrentInstruction == old(CurrentInstruction)
    {
      var i := 3;
      while i >= 0
        invariant -1 <= i <= 3
        invariant Registers == old(Registers).(f := FlagsFrom(old(Registers).f, bits, i + 1))
        invariant Cycles == old(Cycles) && Data == old(Data) && CurrentInstruction == old(CurrentInstruction)
      {
        var bit := bits[i];
        if bit != -1 {
          Registers := Registers.(f := SetNthBit(Registers.f, 7 - i, bit > 0));
        }
        i := i - 1;
      }
    }

    /** `Execute`: NOP steps PC; JP jumps to `Data` when its condition holds. */
    method Execute()
      modifies this
      ensures Registers == Executed(old(Registers), old(Data), old(CurrentInstruction))
      ensures Cycles == old(Cycles) + ExecutedCycles(old(Registers), old(CurrentInstruction))
      ensures Data == old(Data) && CurrentInstruction == old(CurrentInstruction)
    {
      match CurrentInstruction.ik {
        case Nop =>
          Registers := Registers.(pc := (Registers.pc + 1) % 0x1_0000);
          Cycles := Cycles + 4;
        case Jp =>
          if CheckCondition(Registers.f, CurrentInstruction.ck) {
            Registers := Registers.(pc := Data);
            Cycles := Cycles + 4;
            return;
          }
          Registers := Registers.(pc := (Registers.pc + 1) % 0x1_0000);
      }
    }
  }
}
