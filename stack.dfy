/*
 * The stack unit: push pre-decrements SP and writes the byte there, pop
 * reads the byte at SP and post-increments it; the 16-bit forms push the
 * high byte first and pop the low byte first.
 */
module CpuStack {
  import opened Bytes
  import opened Registers
  import opened AddressSpace
  import opened CpuCore

  /** The state after `push(v)`. */
  function PushByte(s: Machine, v: Byte): Machine {
    var sp := (s.regs.sp - 1) % 0x1_0000;
    s.(regs := s.regs.(sp := sp), mem := s.mem[sp := v])
  }

  /** The state after `pop()`, and the byte it returns. */
  function PopByte(s: Machine): (Machine, Byte) {
    (s.(regs := s.regs.(sp := (s.regs.sp + 1) % 0x1_0000)), s.mem[s.regs.sp])
  }

  /** The state after `push16(v)`: `push((v >> 8) & 0xff)` then `push(v & 0xff)`. */
  function PushWord(s: Machine, v: int): Machine {
    PushByte(PushByte(s, (v / 0x100) % 0x100), v % 0x100)
  }

  /** The state after `pop16()`, and the word `(hi << 8) | lo` it returns. */
  function PopWord(s: Machine): (Machine, Word) {
    var (s1, lo) := PopByte(s);
    var (s2, hi) := PopByte(s1);
    (s2, hi as int * 0x100 + lo)
  }

  /** The stack address below sp, wrapping at 0. */
  function Below(sp: Word, k: nat): Word {
    (sp - k) % 0x1_0000
  }

  /**
   * `push16(v)` leaves SP two lower (mod 65536), the high byte at SP-1, the
   * low byte at SP-2, and every other memory byte, register and `ime` as
   * they were.
   */
  lemma PushWordEffect(s: Machine, v: int)
    ensures PushWord(s, v).regs == s.regs.(sp := Below(s.regs.sp, 2))
    ensures PushWord(s, v).ime == s.ime
    ensures PushWord(s, v).mem[Below(s.regs.sp, 1)] == (v / 0x100) % 0x100
    ensures PushWord(s, v).mem[Below(s.regs.sp, 2)] == v % 0x100
    ensures forall a: Word :: a != Below(s.regs.sp, 1) && a != Below(s.regs.sp, 2) ==>
      PushWord(s, v).mem[a] == s.mem[a]
  {
  }

  /**
   * `pop16()` returns `(hi << 8) | lo` with lo read at SP and hi at SP+1,
   * moves SP two up (mod 65536) and changes nothing else.
   */
  lemma PopWordEffect(s: Machine)
    ensures PopWord(s).0 == s.(regs := s.regs.(sp := (s.regs.sp + 2) % 0x1_0000))
    ensures PopWord(s).1 == s.mem[Next(s.regs.sp)] as int * 0x100 + s.mem[s.regs.sp]
  {
  }

  /**
   * `push16(v)` then `pop16()` returns `v & 0xffff` and restores SP, also
   * when SP wraps past 0x0000.
   */
  lemma PushPopWord(s: Machine, v: int)
    ensures PopWord(PushWord(s, v)).1 == v % 0x1_0000
    ensures PopWord(PushWord(s, v)).0.regs == s.regs
    ensures PopWord(PushWord(s, v)).0.ime == s.ime
  {
    var sp := s.regs.sp;
    var s1 := PushWord(s, v);
    assert s1.regs.sp == Below(sp, 2);
    assert Next(Below(sp, 2)) == Below(sp, 1);
  }

  /** `push`: `dec_reg(SP)`, then write the byte at the new SP. */
  method Push(cpu: Cpu, data: Byte)
    requires cpu.Valid()
    modifies cpu, cpu.bus.cells
    ensures cpu.State() == PushByte(old(cpu.State()), data)
  {
    cpu.DecReg(Reg16(SP));
    cpu.bus.Write(cpu.GetReg(Reg16(SP)), data);
  }

  /** `pop`: read the byte at SP, then `inc_reg(SP)`. */
  method Pop(cpu: Cpu) returns (v: Byte)
    requires cpu.Valid()
    modifies cpu
    ensures (cpu.State(), v) == PopByte(old(cpu.State()))
  {
    v := cpu.bus.Read(cpu.GetReg(Reg16(SP)));
    cpu.IncReg(Reg16(SP));
  }

  /** `push16`: the high byte, then the low byte. */
  method Push16(cpu: Cpu, data: int)
    requires cpu.Valid()
    modifies cpu, cpu.bus.cells
    ensures cpu.State() == PushWord(old(cpu.State()), data)
  {
    var hi := (data / 0x100) % 0x100;
    var lo := data % 0x100;
    Push(cpu, hi);
    Push(cpu, lo);
  }

  /** `pop16`: the low byte, then the high byte. */
  method Pop16(cpu: Cpu) returns (v: Word)
    requires cpu.Valid()
    modifies cpu
    ensures (cpu.State(), v) == PopWord(old(cpu.State()))
  {
    var lo := Pop(cpu);
    var hi := Pop(cpu);
    v := hi as int * 0x100 + lo;
  }
}
