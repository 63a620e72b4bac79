/*
 * The instruction procedures as they run on the CPU object: each reads and
 * writes the register fields, the flag bits and the bus in the order the
 * procedure does, and is proved to leave the state `Exec` describes and to
 * return the cycle count it gives.
 */
module InstructionProcs {
  import opened Bytes
  import opened Registers
  import opened AddressSpace
  import opened CpuCore
  import opened CpuStack
  import opened Wrappers
  import opened Semantics

  /** The four `set_flag` calls `Z, N, H, C` that close most ALU procedures. */
  method SetZNHC(cpu: Cpu, fl: Flags)
    modifies cpu
    ensures cpu.F == Pack(fl)
    ensures cpu.A == old(cpu.A) && cpu.B == old(cpu.B) && cpu.C == old(cpu.C) && cpu.D == old(cpu.D)
    ensures cpu.E == old(cpu.E) && cpu.H == old(cpu.H) && cpu.L == old(cpu.L)
    ensures cpu.SP == old(cpu.SP) && cpu.PC == old(cpu.PC) && cpu.ime == old(cpu.ime)
  {
    cpu.SetFlag(Flag.Z, fl.z);
    cpu.SetFlag(Flag.N, fl.n);
    cpu.SetFlag(Flag.H, fl.h);
    assert Unpack(cpu.F).With(Flag.C, fl.c) == fl;
    cpu.SetFlag(Flag.C, fl.c);
  }

  /** The three `set_flag` calls `N, H, C` of `ADD HL,r16`, which keep Z. */
  method SetNHC(cpu: Cpu, n: bool, h: bool, c: bool)
    modifies cpu
    ensures cpu.F == Pack(Unpack(old(cpu.F)).(n := n, h := h, c := c))
    ensures cpu.A == old(cpu.A) && cpu.B == old(cpu.B) && cpu.C == old(cpu.C) && cpu.D == old(cpu.D)
    ensures cpu.E == old(cpu.E) && cpu.H == old(cpu.H) && cpu.L == old(cpu.L)
    ensures cpu.SP == old(cpu.SP) && cpu.PC == old(cpu.PC) && cpu.ime == old(cpu.ime)
  {
    ghost var fl := Unpack(cpu.F).(n := n, h := h, c := c);
    cpu.SetFlag(Flag.N, n);
    cpu.SetFlag(Flag.H, h);
    assert Unpack(cpu.F).With(Flag.C, c) == fl;
    cpu.SetFlag(Flag.C, c);
  }

  // ADD

  method ADD_A_r8(cpu: Cpu, r8: R8) returns (m: MCycles)
    requires cpu.Valid()
    modifies cpu
    ensures cpu.State() == Alu(old(cpu.State()), AddOp, old(cpu.State()).regs.Get8(r8))
    ensures m == 0
  {
    var a := cpu.GetReg(Reg8(R8.A));
    var val := cpu.GetReg(Reg8(r8));
    var result := (a + val) % 0x100;
    cpu.SetReg(Reg8(R8.A), result);
    SetZNHC(cpu, Flags(result == 0, false, a % 16 + val % 16 > 0xf, a + val > 0xff));
    return 0;
  }

  method ADD_A_HL(cpu: Cpu) returns (m: MCycles)
    requires cpu.Valid()
    modifies cpu
    ensures cpu.State() == Alu(old(cpu.State()), AddOp, AtHL(old(cpu.State())))
    ensures m == 2
  {
    var a := cpu.GetReg(Reg8(R8.A));
    var val := cpu.bus.Read(cpu.GetReg(Reg16(HL)));
    var result := (a + val) % 0x100;
    cpu.SetReg(Reg8(R8.A), result);
    SetZNHC(cpu, Flags(result == 0, false, a % 16 + val % 16 > 0xf, a + val > 0xff));
    return 2;
  }

  method ADD_A_n8(cpu: Cpu) returns (m: MCycles)
    requires cpu.Valid()
    modifies cpu
    ensures cpu.State() == Alu(Advance(old(cpu.State()), 1), AddOp, Imm8(old(cpu.State())))
    ensures m == 0
  {
    var a := cpu.GetReg(Reg8(R8.A));
    var val := cpu.bus.Read(cpu.GetReg(Reg16(PC)));
    var result := (a + val) % 0x100;
    cpu.IncReg(Reg16(PC));
    cpu.SetReg(Reg8(R8.A), result);
    SetZNHC(cpu, Flags(result == 0, false, a % 16 + val % 16 > 0xf, a + val > 0xff));
    return 0;
  }

  method ADD_HL_r16(cpu: Cpu, r16: R16) returns (m: MCycles)
    requires cpu.Valid()
    modifies cpu
    ensures cpu.State() == AddHL(old(cpu.State()), Get(old(cpu.State()), Reg16(r16)))
    ensures m == 0
  {
    var hl := cpu.GetReg(Reg16(HL));
    var val := cpu.GetReg(Reg16(r16));
    var result := (hl as int + val) % 0x1_0000;
    cpu.SetReg(Reg16(HL), result);
    SetNHC(cpu, false, hl % 0x1000 + val % 0x1000 > 0xfff, hl as int + val > 0xffff);
    return 0;
  }

  // SUB and CP

  method SUB_A_r8(cpu: Cpu, r8: R8) returns (m: MCycles)
    requires cpu.Valid()
    modifies cpu
    ensures cpu.State() == Alu(old(cpu.State()), SubOp, old(cpu.State()).regs.Get8(r8))
    ensures m == 0
  {
    var a := cpu.GetReg(Reg8(R8.A));
    var val := cpu.GetReg(Reg8(r8));
    var result := (a as int - val) % 0x100;
    cpu.SetReg(Reg8(R8.A), result);
    SetZNHC(cpu, Flags(result == 0, true, a % 16 < val % 16, a < val));
    return 0;
  }

  method SUB_A_HL(cpu: Cpu) returns (m: MCycles)
    requires cpu.Valid()
    modifies cpu
    ensures cpu.State() == Alu(old(cpu.State()), SubOp, AtHL(old(cpu.State())))
    ensures m == 2
  {
    var a := cpu.GetReg(Reg8(R8.A));
    var val := cpu.bus.Read(cpu.GetReg(Reg16(HL)));
    var result := (a as int - val) % 0x100;
    cpu.SetReg(Reg8(R8.A), result);
    SetZNHC(cpu, Flags(result == 0, true, a % 16 < val % 16, a < val));
    return 2;
  }

  method SUB_A_n8(cpu: Cpu) returns (m: MCycles)
    requires cpu.Valid()
    modifies cpu
    ensures cpu.State() == Alu(Advance(old(cpu.State()), 1), SubOp, Imm8(old(cpu.State())))
    ensures m == 0
  {
    var a := cpu.GetReg(Reg8(R8.A));
    var val := cpu.bus.Read(cpu.GetReg(Reg16(PC)));
    var result := (a as int - val) % 0x100;
    cpu.IncReg(Reg16(PC));
    cpu.SetReg(Reg8(R8.A), result);
    SetZNHC(cpu, Flags(result == 0, true, a % 16 < val % 16, a < val));
    return 0;
  }

  method CP_A_r8(cpu: Cpu, r8: R8) returns (m: MCycles)
    requires cpu.Valid()
    modifies cpu
    ensures cpu.State() == Alu(old(cpu.State()), CpOp, old(cpu.State()).regs.Get8(r8))
    ensures m == 0
  {
    var a := cpu.GetReg(Reg8(R8.A));
    var val := cpu.GetReg(Reg8(r8));
    var result := a as int - val;
    SetZNHC(cpu, Flags(result % 0x100 == 0, true, a % 16 < val % 16, a < val));
    return 0;
  }

  method CP_A_HL(cpu: Cpu) returns (m: MCycles)
    requires cpu.Valid()
    modifies cpu
    ensures cpu.State() == Alu(old(cpu.State()), CpOp, AtHL(old(cpu.State())))
    ensures m == 2
  {
    var a := cpu.GetReg(Reg8(R8.A));
    var val := cpu.bus.Read(cpu.GetReg(Reg16(HL)));
    var result := a as int - val;
    SetZNHC(cpu, Flags(result % 0x100 == 0, true, a % 16 < val % 16, a < val));
    return 2;
  }

  method CP_A_n8(cpu: Cpu) returns (m: MCycles)
    requires cpu.Valid()
    modifies cpu
    ensures cpu.State() == Alu(Advance(old(cpu.State()), 1), CpOp, Imm8(old(cpu.State())))
    ensures m == 0
  {
    var a := cpu.GetReg(Reg8(R8.A));
    var val := cpu.bus.Read(cpu.GetReg(Reg16(PC)));
    var result := a as int - val;
    cpu.IncReg(Reg16(PC));
    SetZNHC(cpu, Flags(result % 0x100 == 0, true, a % 16 < val % 16, a < val));
    return 0;
  }

  // Stack

  /**
   * `POP r16` through `set_reg`: for AF the popped low byte goes into F
   * unmasked, unlike the hardware, where the low nibble of F always reads 0.
   */
  method POP_r16(cpu: Cpu, r16: R16) returns (m: MCycles)
    requires cpu.Valid()
    modifies cpu
    ensures cpu.State() == PopInto(old(cpu.State()), Reg16(r16))
    ensures m == 0
  {
    var v := Pop16(cpu);
    cpu.SetReg(Reg16(r16), v);
    return 0;
  }

  method PUSH_r16(cpu: Cpu, r16: R16) returns (m: MCycles)
    requires cpu.Valid()
    modifies cpu, cpu.bus.cells
    ensures cpu.State() == PushWord(old(cpu.State()), Get(old(cpu.State()), Reg16(r16)))
    ensures m == 0
  {
    Push16(cpu, cpu.GetReg(Reg16(r16)));
    return 0;
  }

  // AND, OR, XOR

  method AND_A_r8(cpu: Cpu, r8: R8) returns (m: MCycles)
    requires cpu.Valid()
    modifies cpu
    ensures cpu.State() == Alu(old(cpu.State()), AndOp, old(cpu.State()).regs.Get8(r8))
    ensures m == 0
  {
    var result := Bitwise8(And, cpu.GetReg(Reg8(R8.A)), cpu.GetReg(Reg8(r8)));
    cpu.SetReg(Reg8(R8.A), result);
    SetZNHC(cpu, Flags(result == 0, false, true, false));
    return 0;
  }

  method AND_A_HL(cpu: Cpu) returns (m: MCycles)
    requires cpu.Valid()
    modifies cpu
    ensures cpu.State() == Alu(old(cpu.State()), AndOp, AtHL(old(cpu.State())))
    ensures m == 2
  {
    var result := Bitwise8(And, cpu.GetReg(Reg8(R8.A)), cpu.bus.Read(cpu.GetReg(Reg16(HL))));
    cpu.SetReg(Reg8(R8.A), result);
    SetZNHC(cpu, Flags(result == 0, false, true, false));
    return 2;
  }

  method AND_A_n8(cpu: Cpu) returns (m: MCycles)
    requires cpu.Valid()
    modifies cpu
    ensures cpu.State() == Alu(Advance(old(cpu.State()), 1), AndOp, Imm8(old(cpu.State())))
    ensures m == 2
  {
    var val := cpu.bus.Read(cpu.GetReg(Reg16(PC)));
    var result := Bitwise8(And, cpu.GetReg(Reg8(R8.A)), val);
    cpu.IncReg(Reg16(PC));
    cpu.SetReg(Reg8(R8.A), result);
    SetZNHC(cpu, Flags(result == 0, false, true, false));
    return 2;
  }

  method OR_A_r8(cpu: Cpu, r8: R8) returns (m: MCycles)
    requires cpu.Valid()
    modifies cpu
    ensures cpu.State() == Alu(old(cpu.State()), OrOp, old(cpu.State()).regs.Get8(r8))
    ensures m == 0
  {
    var result := Bitwise8(Or, cpu.GetReg(Reg8(R8.A)), cpu.GetReg(Reg8(r8)));
    cpu.SetReg(Reg8(R8.A), result);
    SetZNHC(cpu, Flags(result == 0, false, false, false));
    return 0;
  }

  method OR_A_HL(cpu: Cpu) returns (m: MCycles)
    requires cpu.Valid()
    modifies cpu
    ensures cpu.State() == Alu(old(cpu.State()), OrOp, AtHL(old(cpu.State())))
    ensures m == 2
  {
    var result := Bitwise8(Or, cpu.GetReg(Reg8(R8.A)), cpu.bus.Read(cpu.GetReg(Reg16(HL))));
    cpu.SetReg(Reg8(R8.A), result);
    SetZNHC(cpu, Flags(result == 0, false, false, false));
    return 2;
  }

  method OR_A_n8(cpu: Cpu) returns (m: MCycles)
    requires cpu.Valid()
    modifies cpu
    ensures cpu.State() == Alu(Advance(old(cpu.State()), 1), OrOp, Imm8(old(cpu.State())))
    ensures m == 2
  {
    var val := cpu.bus.Read(cpu.GetReg(Reg16(PC)));
    var result := Bitwise8(Or, cpu.GetReg(Reg8(R8.A)), val);
    cpu.IncReg(Reg16(PC));
    cpu.SetReg(Reg8(R8.A), result);
    SetZNHC(cpu, Flags(result == 0, false, false, false));
    return 2;
  }

  method XOR_A_r8(cpu: Cpu, r8: R8) returns (m: MCycles)
    requires cpu.Valid()
    modifies cpu
    ensures cpu.State() == Alu(old(cpu.State()), XorOp, old(cpu.State()).regs.Get8(r8))
    ensures m == 0
  {
    var result := Bitwise8(Xor, cpu.GetReg(Reg8(R8.A)), cpu.GetReg(Reg8(r8)));
    cpu.SetReg(Reg8(R8.A), result);
    SetZNHC(cpu, Flags(result == 0, false, false, false));
    return 0;
  }

  method XOR_A_HL(cpu: Cpu) returns (m: MCycles)
    requires cpu.Valid()
    modifies cpu
    ensures cpu.State() == Alu(old(cpu.State()), XorOp, AtHL(old(cpu.State())))
    ensures m == 2
  {
    var result := Bitwise8(Xor, cpu.GetReg(Reg8(R8.A)), cpu.bus.Read(cpu.GetReg(Reg16(HL))));
    cpu.SetReg(Reg8(R8.A), result);
    SetZNHC(cpu, Flags(result == 0, false, false, false));
    return 2;
  }

  method XOR_A_n8(cpu: Cpu) returns (m: MCycles)
    requires cpu.Valid()
    modifies cpu
    ensures cpu.State() == Alu(Advance(old(cpu.State()), 1), XorOp, Imm8(old(cpu.State())))
    ensures m == 2
  {
    var val := cpu.bus.Read(cpu.GetReg(Reg16(PC)));
    var result := Bitwise8(Xor, cpu.GetReg(Reg8(R8.A)), val);
    cpu.IncReg(Reg16(PC));
    cpu.SetReg(Reg8(R8.A), result);
    SetZNHC(cpu, Flags(result == 0, false, false, false));
    return 2;
  }

  /** `CPL`: `set_reg(A, ~A)`, then N and H set. */
  method CPL(cpu: Cpu) returns (m: MCycles)
    requires cpu.Valid()
    modifies cpu
    ensures cpu.State() == Complement(old(cpu.State()))
    ensures m == 0
  {
    cpu.SetReg(Reg8(R8.A), -(cpu.GetReg(Reg8(R8.A)) + 1));
    cpu.SetFlag(Flag.N, true);
    cpu.SetFlag(Flag.H, true);
    return 0;
  }

  // BIT, RES, SET

  method BIT_u3_r8(cpu: Cpu, u3: BitIndex, r8: R8) returns (m: MCycles)
    requires cpu.Valid()
    modifies cpu
    ensures cpu.State() == TestBit(old(cpu.State()), old(cpu.State()).regs.Get8(r8), u3)
    ensures m == 2
  {
    var result := Bitwise8(And, cpu.GetReg(Reg8(r8)), Mask(u3));
    MaskTest(cpu.GetReg(Reg8(r8)), u3);
    cpu.SetFlag(Flag.Z, result == 0);
    cpu.SetFlag(Flag.N, false);
    cpu.SetFlag(Flag.H, true);
    return 2;
  }

  method BIT_u3_HL(cpu: Cpu, u3: BitIndex) returns (m: MCycles)
    requires cpu.Valid()
    modifies cpu
    ensures cpu.State() == TestBit(old(cpu.State()), AtHL(old(cpu.State())), u3)
    ensures m == 2
  {
    var value := cpu.bus.Read(cpu.GetReg(Reg16(HL)));
    var result := Bitwise8(And, value, Mask(u3));
    MaskTest(value, u3);
    cpu.SetFlag(Flag.Z, result == 0);
    cpu.SetFlag(Flag.N, false);
    cpu.SetFlag(Flag.H, true);
    return 2;
  }

  /** `RES u3,r8`: `value & ~(1 << u3)`. */
  method RES_u3_r8(cpu: Cpu, u3: BitIndex, r8: R8) returns (m: MCycles)
    requires cpu.Valid()
    modifies cpu
    ensures cpu.State() == Put(old(cpu.State()), Reg8(r8), WithBit8(old(cpu.State()).regs.Get8(r8), u3, false))
    ensures m == 2
  {
    var value := cpu.GetReg(Reg8(r8));
    ClearBitIsAndNot(value, u3);
    cpu.SetReg(Reg8(r8), Bitwise8(And, value, 0xFF - Mask(u3)));
    return 2;
  }

  method RES_u3_HL(cpu: Cpu, u3: BitIndex) returns (m: MCycles)
    requires cpu.Valid()
    modifies cpu.bus.cells
    ensures cpu.State() == Store(old(cpu.State()), AddrHL(old(cpu.State())), WithBit8(AtHL(old(cpu.State())), u3, false))
    ensures m == 2
  {
    var hl := cpu.GetReg(Reg16(HL));
    var value := cpu.bus.Read(hl);
    ClearBitIsAndNot(value, u3);
    cpu.bus.Write(hl, Bitwise8(And, value, 0xFF - Mask(u3)));
    return 2;
  }

  /** `SET u3,r8`: `value | (1 << u3)`. */
  method SET_u3_r8(cpu: Cpu, u3: BitIndex, r8: R8) returns (m: MCycles)
    requires cpu.Valid()
    modifies cpu
    ensures cpu.State() == Put(old(cpu.State()), Reg8(r8), WithBit8(old(cpu.State()).regs.Get8(r8), u3, true))
    ensures m == 2
  {
    var value := cpu.GetReg(Reg8(r8));
    SetBitIsOr(value, u3);
    cpu.SetReg(Reg8(r8), Bitwise8(Or, value, Mask(u3)));
    return 2;
  }

  method SET_u3_HL(cpu: Cpu, u3: BitIndex) returns (m: MCycles)
    requires cpu.Valid()
    modifies cpu.bus.cells
    ensures cpu.State() == Store(old(cpu.State()), AddrHL(old(cpu.State())), WithBit8(AtHL(old(cpu.State())), u3, true))
    ensures m == 2
  {
    var hl := cpu.GetReg(Reg16(HL));
    var value := cpu.bus.Read(hl);
    SetBitIsOr(value, u3);
    cpu.bus.Write(hl, Bitwise8(Or, value, Mask(u3)));
    return 2;
  }

  // Interrupts and control flow

  method DI(cpu: Cpu) returns (m: MCycles)
    requires cpu.Valid()
    modifies cpu
    ensures cpu.State() == old(cpu.State()).(ime := 0)
    ensures m == 0
  {
    cpu.ime := 0;
    return 0;
  }

  /** `EI`: IME set at once, unlike the hardware, which enables it one instruction later. */
  method EI(cpu: Cpu) returns (m: MCycles)
    requires cpu.Valid()
    modifies cpu
    ensures cpu.State() == old(cpu.State()).(ime := 1)
    ensures m == 0
  {
    cpu.ime := 1;
    return 0;
  }

  /** `CALL n16`; the procedure returns no cycle count. */
  method CALL(cpu: Cpu)
    requires cpu.Valid()
    modifies cpu, cpu.bus.cells
    ensures cpu.State() == Call(old(cpu.State()))
  {
    ghost var s0 := cpu.State();
    var addr := cpu.bus.ReadWord(cpu.GetReg(Reg16(PC)));
    cpu.IncReg(Reg16(PC), 2);
    ghost var s1 := cpu.State();
    assert s1 == Advance(s0, 2);
    Push16(cpu, cpu.GetReg(Reg16(PC)));
    assert cpu.State() == PushWord(s1, s1.regs.pc);
    cpu.SetReg(Reg16(PC), addr);
  }

  method JP_HL(cpu: Cpu) returns (m: MCycles)
    requires cpu.Valid()
    modifies cpu
    ensures cpu.State() == Put(old(cpu.State()), Reg16(PC), AddrHL(old(cpu.State())))
    ensures m == 0
  {
    cpu.SetReg(Reg16(PC), cpu.GetReg(Reg16(HL)));
    return 0;
  }

  method JP_n16(cpu: Cpu) returns (m: MCycles)
    requires cpu.Valid()
    modifies cpu
    ensures cpu.State() == Put(old(cpu.State()), Reg16(PC), Imm16(old(cpu.State())))
    ensures m == 0
  {
    var addr := cpu.bus.ReadWord(cpu.GetReg(Reg16(PC)));
    cpu.SetReg(Reg16(PC), addr);
    return 0;
  }

  method RET(cpu: Cpu) returns (m: MCycles)
    requires cpu.Valid()
    modifies cpu
    ensures cpu.State() == PopInto(old(cpu.State()), Reg16(PC))
    ensures m == 0
  {
    var v := Pop16(cpu);
    cpu.SetReg(Reg16(PC), v);
    return 0;
  }

  // Loads

  method LD_r8_r8(cpu: Cpu, r8_1: R8, r8_2: R8) returns (m: MCycles)
    requires cpu.Valid()
    modifies cpu
    ensures cpu.State() == Put(old(cpu.State()), Reg8(r8_1), old(cpu.State()).regs.Get8(r8_2))
    ensures m == 0
  {
    cpu.SetReg(Reg8(r8_1), cpu.GetReg(Reg8(r8_2)));
    return 0;
  }

  method LD_r8_n8(cpu: Cpu, r8: R8) returns (m: MCycles)
    requires cpu.Valid()
    modifies cpu
    ensures cpu.State() == Advance(Put(old(cpu.State()), Reg8(r8), Imm8(old(cpu.State()))), 1)
    ensures m == 2
  {
    cpu.SetReg(Reg8(r8), cpu.bus.Read(cpu.GetReg(Reg16(PC))));
    cpu.IncReg(Reg16(PC));
    return 2;
  }

  method LD_r16_n16(cpu: Cpu, r16: R16) returns (m: MCycles)
    requires cpu.Valid()
    modifies cpu
    ensures cpu.State() == Advance(Put(old(cpu.State()), Reg16(r16), Imm16(old(cpu.State()))), 2)
    ensures m == 2
  {
    var v := cpu.bus.ReadWord(cpu.GetReg(Reg16(PC)));
    cpu.SetReg(Reg16(r16), v);
    cpu.IncReg(Reg16(PC), 2);
    return 2;
  }

  method LD_r16_A(cpu: Cpu, r16: R16) returns (m: MCycles)
    requires cpu.Valid()
    modifies cpu.bus.cells
    ensures cpu.State() == Store(old(cpu.State()), Get(old(cpu.State()), Reg16(r16)), old(cpu.State()).regs.a)
    ensures m == 2
  {
    var addr := cpu.GetReg(Reg16(r16));
    cpu.bus.Write(addr, cpu.GetReg(Reg8(R8.A)));
    return 2;
  }

  method LD_HL_r8(cpu: Cpu, r8: R8) returns (m: MCycles)
    requires cpu.Valid()
    modifies cpu.bus.cells
    ensures cpu.State() == Store(old(cpu.State()), AddrHL(old(cpu.State())), old(cpu.State()).regs.Get8(r8))
    ensures m == 0
  {
    cpu.bus.Write(cpu.GetReg(Reg16(HL)), cpu.GetReg(Reg8(r8)));
    return 0;
  }

  method LD_HL_n8(cpu: Cpu) returns (m: MCycles)
    requires cpu.Valid()
    modifies cpu, cpu.bus.cells
    ensures cpu.State() == Advance(Store(old(cpu.State()), AddrHL(old(cpu.State())), Imm8(old(cpu.State()))), 1)
    ensures m == 1
  {
    cpu.bus.Write(cpu.GetReg(Reg16(HL)), cpu.bus.Read(cpu.GetReg(Reg16(PC))));
    cpu.IncReg(Reg16(PC));
    return 1;
  }

  method LD_SP_n16(cpu: Cpu) returns (m: MCycles)
    requires cpu.Valid()
    modifies cpu
    ensures cpu.State() == Advance(Put(old(cpu.State()), Reg16(SP), Imm16(old(cpu.State()))), 2)
    ensures m == 2
  {
    var v := cpu.bus.ReadWord(cpu.GetReg(Reg16(PC)));
    cpu.SetReg(Reg16(SP), v);
    cpu.IncReg(Reg16(PC), 2);
    return 2;
  }

  method LD_A_r16(cpu: Cpu, r16: R16) returns (m: MCycles)
    requires cpu.Valid()
    modifies cpu
    ensures cpu.State() == Put(old(cpu.State()), Reg8(R8.A), old(cpu.State()).mem[Get(old(cpu.State()), Reg16(r16))])
    ensures m == 1
  {
    cpu.SetReg(Reg8(R8.A), cpu.bus.Read(cpu.GetReg(Reg16(r16))));
    return 1;
  }

  method LD_r8_HL(cpu: Cpu, r8: R8) returns (m: MCycles)
    requires cpu.Valid()
    modifies cpu
    ensures cpu.State() == Put(old(cpu.State()), Reg8(r8), AtHL(old(cpu.State())))
    ensures m == 1
  {
    cpu.SetReg(Reg8(r8), cpu.bus.Read(cpu.GetReg(Reg16(HL))));
    return 1;
  }

  method LD_HLI_A(cpu: Cpu) returns (m: MCycles)
    requires cpu.Valid()
    modifies cpu, cpu.bus.cells
    ensures cpu.State() == Put(Store(old(cpu.State()), AddrHL(old(cpu.State())), old(cpu.State()).regs.a), Reg16(HL), AddrHL(old(cpu.State())) + 1)
    ensures m == 1
  {
    cpu.bus.Write(cpu.GetReg(Reg16(HL)), cpu.GetReg(Reg8(R8.A)));
    cpu.IncReg(Reg16(HL));
    return 1;
  }

  method LD_HLD_A(cpu: Cpu) returns (m: MCycles)
    requires cpu.Valid()
    modifies cpu, cpu.bus.cells
    ensures cpu.State() == Put(Store(old(cpu.State()), AddrHL(old(cpu.State())), old(cpu.State()).regs.a), Reg16(HL), AddrHL(old(cpu.State())) - 1)
    ensures m == 0
  {
    cpu.bus.Write(cpu.GetReg(Reg16(HL)), cpu.GetReg(Reg8(R8.A)));
    cpu.DecReg(Reg16(HL));
    return 0;
  }

  method LD_A_HLI(cpu: Cpu) returns (m: MCycles)
    requires cpu.Valid()
    modifies cpu
    ensures cpu.State() == Put(Put(old(cpu.State()), Reg8(R8.A), AtHL(old(cpu.State()))), Reg16(HL), AddrHL(old(cpu.State())) + 1)
    ensures m == 1
  {
    cpu.SetReg(Reg8(R8.A), cpu.bus.Read(cpu.GetReg(Reg16(HL))));
    cpu.IncReg(Reg16(HL));
    return 1;
  }

  method LD_A_HLD(cpu: Cpu) returns (m: MCycles)
    requires cpu.Valid()
    modifies cpu
    ensures cpu.State() == Put(Put(old(cpu.State()), Reg8(R8.A), AtHL(old(cpu.State()))), Reg16(HL), AddrHL(old(cpu.State())) - 1)
    ensures m == 1
  {
    cpu.SetReg(Reg8(R8.A), cpu.bus.Read(cpu.GetReg(Reg16(HL))));
    cpu.DecReg(Reg16(HL));
    return 1;
  }

  method LD_SP_HL(cpu: Cpu) returns (m: MCycles)
    requires cpu.Valid()
    modifies cpu
    ensures cpu.State() == Put(old(cpu.State()), Reg16(SP), AddrHL(old(cpu.State())))
    ensures m == 0
  {
    cpu.SetReg(Reg16(SP), cpu.GetReg(Reg16(HL)));
    return 0;
  }

  method LD_n16_SP(cpu: Cpu) returns (m: MCycles)
    requires cpu.Valid()
    modifies cpu, cpu.bus.cells
    ensures cpu.State() == Advance(old(cpu.State()).(mem := Write16(old(cpu.State()).mem, Imm16(old(cpu.State())), old(cpu.State()).regs.sp)), 2)
    ensures m == 2
  {
    var addr := cpu.bus.ReadWord(cpu.GetReg(Reg16(PC)));
    cpu.bus.WriteWord(addr, cpu.SP);
    cpu.IncReg(Reg16(PC), 2);
    return 2;
  }

  /** `LD [n16],A` through `write16`, as the procedure does, unlike the hardware, which writes one byte. */
  method LD_n16_A(cpu: Cpu) returns (m: MCycles)
    requires cpu.Valid()
    modifies cpu, cpu.bus.cells
    ensures cpu.State() == Advance(old(cpu.State()).(mem := Write16(old(cpu.State()).mem, Imm16(old(cpu.State())), old(cpu.State()).regs.a)), 2)
    ensures m == 2
  {
    var addr := cpu.bus.ReadWord(cpu.GetReg(Reg16(PC)));
    cpu.bus.WriteWord(addr, cpu.GetReg(Reg8(R8.A)));
    cpu.IncReg(Reg16(PC), 2);
    return 2;
  }

  method LD_A_n16(cpu: Cpu) returns (m: MCycles)
    requires cpu.Valid()
    modifies cpu
    ensures cpu.State() == LoadFromImm16(old(cpu.State()))
    ensures m == 2
  {
    var addr := cpu.bus.ReadWord(cpu.GetReg(Reg16(PC)));
    cpu.IncReg(Reg16(PC), 2);
    cpu.SetReg(Reg8(R8.A), cpu.bus.Read(addr));
    return 2;
  }

  /** `LD HL,SP+e8`: e8 sign-extended; H and C from SP's low nibble and low byte. */
  method LD_HL_SP_E8(cpu: Cpu) returns (m: MCycles)
    requires cpu.Valid()
    modifies cpu
    ensures cpu.State() == AddSpOffset(old(cpu.State()))
    ensures m == 3
  {
    var r8_val := SignExtend(cpu.bus.Read(cpu.GetReg(Reg16(PC))));
    var result := (cpu.SP + r8_val) % 0x1_0000;
    cpu.IncReg(Reg16(PC));
    cpu.SetReg(Reg16(HL), result);
    SetZNHC(cpu, Flags(false, false, cpu.SP % 16 + r8_val % 16 > 0xf, cpu.SP % 0x100 + r8_val % 0x100 > 0xff));
    return 3;
  }

  /** `LDH [n8],A`: the address is `0xff00 + n8`. */
  method LDH_n16_A(cpu: Cpu) returns (m: MCycles)
    requires cpu.Valid()
    modifies cpu, cpu.bus.cells
    ensures cpu.State() == Store(Advance(old(cpu.State()), 1), 0xFF00 + Imm8(old(cpu.State())), old(cpu.State()).regs.a)
    ensures m == 3
  {
    var addr := 0xFF00 + cpu.bus.Read(cpu.GetReg(Reg16(PC)));
    cpu.IncReg(Reg16(PC));
    cpu.bus.Write(addr, cpu.GetReg(Reg8(R8.A)));
    return 3;
  }

  // Miscellaneous

  method NOP(cpu: Cpu) returns (m: MCycles)
    requires cpu.Valid()
    ensures m == 0
  {
    return 0;
  }

  /** `CCF`: only C is complemented, unlike the hardware, which also clears N and H. */
  method CCF(cpu: Cpu) returns (m: MCycles)
    requires cpu.Valid()
    modifies cpu
    ensures cpu.State() == ComplementCarry(old(cpu.State()))
    ensures m == 0
  {
    cpu.SetFlag(Flag.C, !cpu.GetFlag(Flag.C));
    return 0;
  }

  method SCF(cpu: Cpu) returns (m: MCycles)
    requires cpu.Valid()
    modifies cpu
    ensures cpu.State() == SetCarry(old(cpu.State()))
    ensures m == 0
  {
    cpu.SetFlag(Flag.N, false);
    cpu.SetFlag(Flag.H, false);
    cpu.SetFlag(Flag.C, true);
    return 0;
  }

  // Dispatch

  /** `Execute` restricted to the ADD, SUB and CP procedures. */
  method ExecuteArithmetic(cpu: Cpu, p: Proc) returns (m: Option<MCycles>)
    requires cpu.Valid()
    requires IsArithmetic(p)
    modifies cpu, cpu.bus.cells
    ensures (cpu.State(), m) == ExecArithmetic(p, old(cpu.State()))
  {
    var k: MCycles;
    match p {
      case ADD_A_r8(r) => k := ADD_A_r8(cpu, r);
      case ADD_A_HL => k := ADD_A_HL(cpu);
      case ADD_A_n8 => k := ADD_A_n8(cpu);
      case ADD_HL_r16(rr) => k := ADD_HL_r16(cpu, rr);
      case SUB_A_r8(r) => k := SUB_A_r8(cpu, r);
      case SUB_A_HL => k := SUB_A_HL(cpu);
      case SUB_A_n8 => k := SUB_A_n8(cpu);
      case CP_A_r8(r) => k := CP_A_r8(cpu, r);
      case CP_A_HL => k := CP_A_HL(cpu);
      case CP_A_n8 => k := CP_A_n8(cpu);
    }
    return Some(k);
  }

  /** `Execute` restricted to the AND, OR, XOR and CPL procedures. */
  method ExecuteLogic(cpu: Cpu, p: Proc) returns (m: Option<MCycles>)
    requires cpu.Valid()
    requires IsLogic(p)
    modifies cpu, cpu.bus.cells
    ensures (cpu.State(), m) == ExecLogic(p, old(cpu.State()))
  {
    var k: MCycles;
    match p {
      case AND_A_r8(r) => k := AND_A_r8(cpu, r);
      case AND_A_HL => k := AND_A_HL(cpu);
      case AND_A_n8 => k := AND_A_n8(cpu);
      case OR_A_r8(r) => k := OR_A_r8(cpu, r);
      case OR_A_HL => k := OR_A_HL(cpu);
      case OR_A_n8 => k := OR_A_n8(cpu);
      case XOR_A_r8(r) => k := XOR_A_r8(cpu, r);
      case XOR_A_HL => k := XOR_A_HL(cpu);
      case XOR_A_n8 => k := XOR_A_n8(cpu);
      case CPL => k := CPL(cpu);
    }
    return Some(k);
  }

  /** `Execute` restricted to the BIT, RES and SET procedures. */
  method ExecuteBitOps(cpu: Cpu, p: Proc) returns (m: Option<MCycles>)
    requires cpu.Valid()
    requires IsBitOp(p)
    modifies cpu, cpu.bus.cells
    ensures (cpu.State(), m) == ExecBitOps(p, old(cpu.State()))
  {
    var k: MCycles;
    match p {
      case BIT_u3_r8(u3, r) => k := BIT_u3_r8(cpu, u3, r);
      case BIT_u3_HL(u3) => k := BIT_u3_HL(cpu, u3);
      case RES_u3_r8(u3, r) => k := RES_u3_r8(cpu, u3, r);
      case RES_u3_HL(u3) => k := RES_u3_HL(cpu, u3);
      case SET_u3_r8(u3, r) => k := SET_u3_r8(cpu, u3, r);
      case SET_u3_HL(u3) => k := SET_u3_HL(cpu, u3);
    }
    return Some(k);
  }

  /** `Execute` restricted to the stack, jump, interrupt-enable and carry-flag procedures and NOP. */
  method ExecuteControl(cpu: Cpu, p: Proc) returns (m: Option<MCycles>)
    requires cpu.Valid()
    requires IsControl(p)
    modifies cpu, cpu.bus.cells
    ensures (cpu.State(), m) == ExecControl(p, old(cpu.State()))
  {
    var k: MCycles;
    match p {
      case POP_r16(rr) => k := POP_r16(cpu, rr);
      case PUSH_r16(rr) => k := PUSH_r16(cpu, rr);
      case DI => k := DI(cpu);
      case EI => k := EI(cpu);
      case CALL =>
        CALL(cpu);
        return None;
      case JP_HL => k := JP_HL(cpu);
      case JP_n16 => k := JP_n16(cpu);
      case RET => k := RET(cpu);
      case NOP => k := NOP(cpu);
      case CCF => k := CCF(cpu);
      case SCF => k := SCF(cpu);
    }
    return Some(k);
  }

  /** `Execute` restricted to the loads into registers. */
  method ExecuteLoad(cpu: Cpu, p: Proc) returns (m: Option<MCycles>)
    requires cpu.Valid()
    requires IsLoad(p)
    modifies cpu, cpu.bus.cells
    ensures (cpu.State(), m) == ExecLoad(p, old(cpu.State()))
  {
    var k: MCycles;
    match p {
      case LD_r8_r8(d, r) => k := LD_r8_r8(cpu, d, r);
      case LD_r8_n8(r) => k := LD_r8_n8(cpu, r);
      case LD_r16_n16(rr) => k := LD_r16_n16(cpu, rr);
      case LD_SP_n16 => k := LD_SP_n16(cpu);
      case LD_A_r16(rr) => k := LD_A_r16(cpu, rr);
      case LD_r8_HL(r) => k := LD_r8_HL(cpu, r);
      case LD_A_HLI => k := LD_A_HLI(cpu);
      case LD_A_HLD => k := LD_A_HLD(cpu);
      case LD_SP_HL => k := LD_SP_HL(cpu);
      case LD_A_n16 => k := LD_A_n16(cpu);
      case LD_HL_SP_E8 => k := LD_HL_SP_E8(cpu);
    }
    return Some(k);
  }

  /** `Execute` restricted to the loads into memory. */
  method ExecuteStore(cpu: Cpu, p: Proc) returns (m: Option<MCycles>)
    requires cpu.Valid()
    requires IsStore(p)
    modifies cpu, cpu.bus.cells
    ensures (cpu.State(), m) == ExecStore(p, old(cpu.State()))
  {
    var k: MCycles;
    match p {
      case LD_r16_A(rr) => k := LD_r16_A(cpu, rr);
      case LD_HL_r8(r) => k := LD_HL_r8(cpu, r);
      case LD_HL_n8 => k := LD_HL_n8(cpu);
      case LD_HLI_A => k := LD_HLI_A(cpu);
      case LD_HLD_A => k := LD_HLD_A(cpu);
      case LD_n16_SP => k := LD_n16_SP(cpu);
      case LD_n16_A => k := LD_n16_A(cpu);
      case LDH_n16_A => k := LDH_n16_A(cpu);
    }
    return Some(k);
  }

  /**
   * `proc[entry.name](cpu, ...entry.operands)`: the procedure a table entry
   * names, run on the CPU with the entry's operands. The state it leaves and
   * the cycles it returns are those `Exec` gives; CALL returns nothing.
   */
  method Execute(cpu: Cpu, p: Proc) returns (m: Option<MCycles>)
    requires cpu.Valid()
    modifies cpu, cpu.bus.cells
    ensures (cpu.State(), m) == Exec(p, old(cpu.State()))
  {
    if IsArithmetic(p) {
      m := ExecuteArithmetic(cpu, p);
    } else if IsLogic(p) {
      m := ExecuteLogic(cpu, p);
    } else if IsBitOp(p) {
      m := ExecuteBitOps(cpu, p);
    } else if IsControl(p) {
      m := ExecuteControl(cpu, p);
    } else if IsLoad(p) {
      m := ExecuteLoad(cpu, p);
    } else {
      m := ExecuteStore(cpu, p);
    }
  }
}
