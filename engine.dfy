/*
 * The step engine of `Cpu` (and of the `CPU` class that returns T-cycles):
 * fetch the opcode at PC, follow the 0xCB prefix into the second table,
 * look the opcode up, and run the procedure the entry names. The tables
 * themselves are parameters: which procedure each opcode names is not part
 * of this model.
 */
module Engine {
  import opened Wrappers
  import opened Bytes
  import opened Registers
  import opened AddressSpace
  import opened CpuCore
  import opened Semantics
  import opened InstructionProcs
  import InstructionFacts

  /** `INSTRUCTION_SET` or `PINSTRUCTION_SET`: opcode to procedure and operands. */
  type Table = map<Byte, Proc>

  /** The byte that sends the next opcode to the prefixed table. */
  const Prefix: Byte := 0xCB

  /** `Entry not found: 0x..`, thrown for an opcode the table lacks. */
  datatype Fault = EntryNotFound(opcode: Byte)

  /** `get_proc`/`getProc`: the entry, or the error it throws. */
  function GetProc(table: Table, opcode: Byte): (r: Result<Proc, Fault>)
    ensures r.Success? <==> opcode in table
    ensures r.Success? ==> r.value == table[opcode]
    ensures r.Failure? ==> r.error == EntryNotFound(opcode)
  {
    if opcode in table then Success(table[opcode]) else Failure(EntryNotFound(opcode))
  }

  /** The opcode `step` dispatches on, which table it uses, and the state after the fetch. */
  datatype Fetched = Fetched(opcode: Byte, prefixed: bool, next: Machine)

  /**
   * The fetch: the byte at PC, and PC moved past it; after 0xCB the byte at
   * the new PC, and PC moved once more. Only PC changes, and both moves wrap
   * at 0xFFFF.
   */
  function Fetch(s: Machine): (f: Fetched)
    ensures f.prefixed <==> s.mem[s.regs.pc] == Prefix
    ensures f.opcode == if f.prefixed then s.mem[Next(s.regs.pc)] else s.mem[s.regs.pc]
    ensures f.next == s.(regs := s.regs.(pc := (s.regs.pc + if f.prefixed then 2 else 1) % 0x1_0000))
  {
    var op := s.mem[s.regs.pc];
    var s1 := Advance(s, 1);
    if op == Prefix then Fetched(s1.mem[s1.regs.pc], true, Advance(s1, 1)) else Fetched(op, false, s1)
  }

  /** Look the opcode up and run its procedure; a missing entry runs nothing. */
  function Run(table: Table, opcode: Byte, s: Machine): (Machine, Result<Option<MCycles>, Fault>) {
    match GetProc(table, opcode)
    case Failure(e) => (s, Failure(e))
    case Success(p) => (Exec(p, s).0, Success(Exec(p, s).1))
  }

  /** One `step`: the state it leaves and what it returns or throws. */
  function StepSpec(base: Table, prefixed: Table, s: Machine): (Machine, Result<Option<MCycles>, Fault>) {
    var f := Fetch(s);
    Run(if f.prefixed then prefixed else base, f.opcode, f.next)
  }

  /**
   * `get_proc(opcode, table)(this)`: the entry's procedure, run on the CPU,
   * or the error for a missing entry with nothing run.
   */
  method Dispatch(cpu: Cpu, table: Table, opcode: Byte) returns (r: Result<Option<MCycles>, Fault>)
    requires cpu.Valid()
    modifies cpu, cpu.bus.cells
    ensures (cpu.State(), r) == Run(table, opcode, old(cpu.State()))
  {
    var entry := GetProc(table, opcode);
    if entry.Failure? {
      return Failure(entry.error);
    }
    var m := Execute(cpu, entry.value);
    return Success(m);
  }

  /** `Cpu.step`: fetch, follow the prefix, dispatch; returns machine cycles. */
  method Step(cpu: Cpu, base: Table, prefixed: Table) returns (r: Result<Option<MCycles>, Fault>)
    requires cpu.Valid()
    modifies cpu, cpu.bus.cells
    ensures (cpu.State(), r) == StepSpec(base, prefixed, old(cpu.State()))
  {
    ghost var s0 := cpu.State();
    var opcode := cpu.bus.Read(cpu.PC);
    cpu.IncReg(Reg16(PC));
    if opcode == Prefix {
      opcode := cpu.bus.Read(cpu.PC);
      cpu.IncReg(Reg16(PC));
      assert cpu.State() == Fetch(s0).next;
      r := Dispatch(cpu, prefixed, opcode);
    } else {
      assert cpu.State() == Fetch(s0).next;
      r := Dispatch(cpu, base, opcode);
    }
  }

  /** `* 4`: machine cycles to T-cycles; `undefined * 4` is `NaN`, kept as `None`. */
  function TCycles(m: Option<MCycles>): Option<nat> {
    if m.Some? then Some(4 * m.value) else None
  }

  /** `CPU.step`: the same step, returning T-cycles. */
  method StepT(cpu: Cpu, base: Table, prefixed: Table) returns (r: Result<Option<nat>, Fault>)
    requires cpu.Valid()
    modifies cpu, cpu.bus.cells
    ensures cpu.State() == StepSpec(base, prefixed, old(cpu.State())).0
    ensures var res := StepSpec(base, prefixed, old(cpu.State())).1;
      r == if res.Success? then Success(TCycles(res.value)) else Failure(res.error)
  {
    var m := Step(cpu, base, prefixed);
    if m.Failure? {
      return Failure(m.error);
    }
    return Success(TCycles(m.value));
  }

  /**
   * An opcode the table lacks throws: the only change is the PC move of the
   * fetch (one byte, or two after 0xCB), and no procedure runs.
   */
  lemma MissingEntryRunsNothing(base: Table, prefixed: Table, s: Machine)
    ensures var f := Fetch(s);
      var (t, r) := StepSpec(base, prefixed, s);
      f.opcode !in (if f.prefixed then prefixed else base) <==> r.Failure?
    ensures var f := Fetch(s);
      var (t, r) := StepSpec(base, prefixed, s);
      r.Failure? ==>
        (r.error == EntryNotFound(f.opcode) && t.mem == s.mem && t.ime == s.ime &&
         t.regs == s.regs.(pc := (s.regs.pc + if f.prefixed then 2 else 1) % 0x1_0000))
  {
  }

  /**
   * An opcode the table has runs its procedure on the state after the fetch:
   * PC already points past the opcode (and past 0xCB), and the step returns
   * the procedure's cycles.
   */
  lemma FoundEntryRuns(base: Table, prefixed: Table, s: Machine)
    requires var f := Fetch(s); f.opcode in (if f.prefixed then prefixed else base)
    ensures var f := Fetch(s);
      var p := (if f.prefixed then prefixed else base)[f.opcode];
      StepSpec(base, prefixed, s) == (Exec(p, f.next).0, Success(Exec(p, f.next).1))
  {
  }

  /**
   * The T-cycle step returns four times the procedure's machine cycles, and
   * nothing (NaN) exactly when the procedure is CALL.
   */
  lemma FourTimesCycles(base: Table, prefixed: Table, s: Machine)
    requires var f := Fetch(s); f.opcode in (if f.prefixed then prefixed else base)
    ensures var f := Fetch(s);
      var p := (if f.prefixed then prefixed else base)[f.opcode];
      var r := StepSpec(base, prefixed, s).1;
      r.Success? && (TCycles(r.value).None? <==> p == CALL) &&
      (r.value.Some? ==> TCycles(r.value) == Some(4 * r.value.value))
  {
    var f := Fetch(s);
    var p := (if f.prefixed then prefixed else base)[f.opcode];
    InstructionFacts.CyclesExceptCall(p, f.next);
  }

  /** With tables that cover every byte, a step never throws. */
  lemma FullTablesNeverThrow(base: Table, prefixed: Table, s: Machine)
    requires forall b: Byte :: b in base
    requires forall b: Byte :: b in prefixed
    ensures StepSpec(base, prefixed, s).1.Success?
  {
    var f := Fetch(s);
    assert f.opcode in base && f.opcode in prefixed;
  }
}
