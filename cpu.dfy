/*
 * The CPU object: its register fields, the interrupt master enable and the
 * bus it talks to, with the register-file and flag operations that update
 * those fields in place.
 */
module CpuCore {
  import opened Bytes
  import opened Registers
  import opened AddressSpace

  type ImeValue = x: int | 0 <= x <= 1

  /** Everything an instruction can observe or change, as one value. */
  datatype Machine = Machine(regs: Regs, ime: ImeValue, mem: Memory)

  class Cpu {
    var A: Byte
    var F: Byte
    var B: Byte
    var C: Byte
    var D: Byte
    var E: Byte
    var H: Byte
    var L: Byte
    var SP: Word
    var PC: Word
    var ime: ImeValue
    const bus: Bus

    /**
     * A new CPU: PC and SP given, A..L given or zero by default, `ime` zero.
     * The constructor stores its arguments as they are, without masking F.
     */
    constructor (bus: Bus, pc: Word, sp: Word, a: Byte := 0, f: Byte := 0, b: Byte := 0,
                 c: Byte := 0, d: Byte := 0, e: Byte := 0, h: Byte := 0, l: Byte := 0)
      ensures this.bus == bus
      ensures RegFile() == Regs(a, f, b, c, d, e, h, l, sp, pc) && ime == 0
    {
      this.bus := bus;
      PC := pc;
      SP := sp;
      A, F, B, C, D, E, H, L := a, f, b, c, d, e, h, l;
      ime := 0;
    }

    predicate Valid() {
      bus.Valid()
    }

    /** The register fields as a value. */
    function RegFile(): Regs
      reads this
    {
      Regs(A, F, B, C, D, E, H, L, SP, PC)
    }

    /** The whole observable state as a value. */
    function State(): Machine
      requires Valid()
      reads this, bus.cells
    {
      Machine(RegFile(), ime, bus.Contents())
    }

    /** `get_reg`. */
    function GetReg(name: Reg): Word
      reads this
    {
      Read(RegFile(), name)
    }

    /** `get_flag`. */
    predicate GetFlag(flag: Flag)
      reads this
    {
      Registers.GetFlag(F, flag)
    }

    /**
     * `set_reg`: the write masks to the register's width; JavaScript's
     * `& 0xff`, `& 0xffff` and `>> 8` are Euclidean `%` and `/` here, also
     * for a negative value.
     */
    method SetReg(name: Reg, val: int)
      modifies this
      ensures RegFile() == Write(old(RegFile()), name, val)
      ensures name != Reg8(R8.F) && name != Reg16(AF) ==> F == old(F)
      ensures ime == old(ime)
    {
      match name {
        case Reg8(A) => A := val % 0x100;
        case Reg8(F) => F := val % 0x100;
        case Reg8(B) => B := val % 0x100;
        case Reg8(C) => C := val % 0x100;
        case Reg8(D) => D := val % 0x100;
        case Reg8(E) => E := val % 0x100;
        case Reg8(H) => H := val % 0x100;
        case Reg8(L) => L := val % 0x100;
        case Reg16(SP) => SP := val % 0x1_0000;
        case Reg16(PC) => PC := val % 0x1_0000;
        case Reg16(AF) => A, F := (val / 0x100) % 0x100, val % 0x100;
        case Reg16(BC) => B, C := (val / 0x100) % 0x100, val % 0x100;
        case Reg16(DE) => D, E := (val / 0x100) % 0x100, val % 0x100;
        case Reg16(HL) => H, L := (val / 0x100) % 0x100, val % 0x100;
      }
    }

    /** `inc_reg(name, amount = 1)`: `set_reg(name, get_reg(name) + amount)`. */
    method IncReg(name: Reg, amount: int := 1)
      modifies this
      ensures RegFile() == Write(old(RegFile()), name, Read(old(RegFile()), name) + amount)
      ensures Read(RegFile(), name) == (Read(old(RegFile()), name) + amount) % Width(name)
      ensures ime == old(ime)
    {
      WriteThenRead(RegFile(), name, GetReg(name) + amount);
      SetReg(name, GetReg(name) + amount);
    }

    /** `dec_reg(name, amount = 1)`: `set_reg(name, get_reg(name) - amount)`. */
    method DecReg(name: Reg, amount: int := 1)
      modifies this
      ensures RegFile() == Write(old(RegFile()), name, Read(old(RegFile()), name) - amount)
      ensures Read(RegFile(), name) == (Read(old(RegFile()), name) - amount) % Width(name)
      ensures ime == old(ime)
    {
      WriteThenRead(RegFile(), name, GetReg(name) - amount);
      SetReg(name, GetReg(name) - amount);
    }

    /**
     * `set_flag`: `F |= 1 << pos` or `F &= ~(1 << pos)`, then `F &= 0xf0`.
     * F ends up holding the old flags with this one replaced, and a clear
     * low nibble.
     */
    method SetFlag(flag: Flag, val: bool)
      modifies this
      ensures F == Pack(Unpack(old(F)).With(flag, val))
      ensures Unpack(F) == Unpack(old(F)).With(flag, val)
      ensures A == old(A) && B == old(B) && C == old(C) && D == old(D) && E == old(E)
      ensures H == old(H) && L == old(L) && SP == old(SP) && PC == old(PC) && ime == old(ime)
    {
      var f := F;
      SetFlagPacks(f, flag, val);
      PackUnpack(Unpack(f).With(flag, val));
      if val {
        f := WithBit(f, Pos(flag), true);
      } else {
        f := WithBit(f, Pos(flag), false);
      }
      F := HighNibble(f);
    }

    /** `check_condition`: reads the C and Z flags only. */
    predicate CheckCondition(cond: Cond)
      reads this
    {
      var c := GetFlag(Flag.C);
      var z := GetFlag(Flag.Z);
      match cond
      case C => c
      case Z => z
      case NC => !c
      case NZ => !z
    }
  }

  /** `check_condition` agrees with the condition read off the F value. */
  lemma CheckConditionReadsF(cpu: Cpu, cond: Cond)
    ensures cpu.CheckCondition(cond) == Holds(cpu.F, cond)
  {
  }
}
