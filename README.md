# SM83 instruction engine, modelled in Dafny

The repository emulates the Game Boy's SM83 CPU three times over:

- The TypeScript core (`src/core/cpu/`). A `Cpu` object holds the 8-bit registers A, F, B, C, D, E, H, L, the 16-bit SP and PC, an interrupt-master-enable flag `ime` and a bus.
  - Its `step` fetches the opcode at PC. After the 0xCB prefix it fetches the next opcode from a second table.
  - It looks the opcode up in a table of instruction procedures and runs the procedure found. The procedure returns the machine cycles it took.
  - The older `src/core/cpu.ts` has the same step, owns its stack and returns T-cycles, four per machine cycle. The procedures and tables it imports are not part of this model (see "## Left out").
- The `sm83` package (`packages/sm83/src/CPU.ts`). It has the same registers, but decodes with a `switch` over the opcode. Its instruction files copy the core procedures.
- The Go engine (`pkg/sm83/sm83.go`, `utils.go`). It has a register file, flag writes driven by four `-1/0/1` entries, condition checks, and an `Execute` that covers NOP and JP.

The model is imperative where the source mutates state:
- `CpuCore.Cpu` is a class with the register fields and a `Bus` whose memory is an `array`.
- The instruction procedures are methods on it (`InstructionProcs`), and so are the stack helpers (`CpuStack`) and the two step loops (`Engine.Step`, `Decoder.PackageStep`).
- The Go `SM83` is the class `GoCore.Sm83`.

Every method is proved against a pure specification:
- `Semantics.Exec` gives the new machine state and cycle count of each procedure. `Engine.StepSpec` and `Decoder.PackageStepSpec` give the result of one step. `GoCore.Executed` and `GoCore.WrittenFlags` are the Go counterparts.
- The lemmas in `InstructionFacts`, `Engine`, `Decoder`, `GoBits` and `GoCore` say what those specifications mean. For example:
  - the flags of each ALU operation as exact arithmetic facts;
  - push/pop and call/return round trips;
  - which instructions change IME, and how far each moves PC;
  - when a step throws;
  - which opcodes the package decodes, and to what;
  - how the Go engine relates to the TypeScript one.

Registers and bytes are integers with explicit ranges: `Byte` is 0..255 and `Word` is 0..65535. Bitwise operations are defined bit by bit (`Bytes.Bitwise`). JavaScript's `& 0xff` / `& 0xffff` masking is written as `% 0x100` / `% 0x1_0000`, and Go's `uint8` truncation is written the same way.

The instruction procedures call the `Cpu` methods as `getReg`, `setReg`, `incReg`, `decReg`, `getFlag` and `setFlag`, while `src/core/cpu/cpu.ts` declares them as `get_reg`, `set_reg`, and so on. The model takes these to be the same methods.

## Model

| member | source | states |
|---|---|---|
| Bytes.MaskTest | src/core/cpu/cpu.ts:61-63 | `(F & (1 << k)) !== 0` is false exactly when bit k of F is clear |
| Bytes.SetBitIsOr | src/core/cpu/cpu.ts:66-67 | `x \| (1 << k)` is x with bit k set and every other bit kept |
| Bytes.ClearBitIsAndNot | src/core/cpu/cpu.ts:68-69 | `x & ~(1 << k)`, masked to the byte, is x with bit k cleared |
| Bytes.HighNibbleBits | src/core/cpu/cpu.ts:72 | `F &= 0xf0` keeps bits 7..4 and clears bits 3..0 |
| Registers.Read | src/core/cpu/cpu.ts:75-98 | a register reads below its width: 256 for 8-bit names, 65536 for pairs, SP and PC |
| Registers.PairJoinIsOr | src/core/cpu/cpu.ts:94 | for two bytes, `(hi << 8) \| lo` is `hi * 256 + lo` |
| Registers.WriteThenRead | src/core/cpu/cpu.ts:100-133 | a register reads back what was written modulo its width, and every register sharing no storage with it is unchanged |
| Registers.PairSplit | src/core/cpu/cpu.ts:124-128 | splitting a value into `(v >> 8) & 0xff` and `v & 0xff` and joining them again gives `v & 0xffff` |
| Registers.PairWriteHalves | src/core/cpu/cpu.ts:122-128 | a pair write puts the high byte in the pair's first register and the low byte in its second |
| Registers.WriteKeepsOther | src/core/cpu/cpu.ts:100-133 | a write leaves every register that does not overlap the written one |
| Registers.IncDecWrap | src/core/cpu/cpu.ts:135-141 | `inc_reg`/`dec_reg` leave every register at `(old ± amount) mod width` for every amount; so PC 0xFFFF + 1 is 0 and SP 0 - 1 is 0xFFFF |
| Registers.SetFlagPacks | src/core/cpu/cpu.ts:65-73 | `set_flag` gives F the old flags with exactly the one flag replaced, packed with a clear low nibble, whatever F held |
| Registers.HoldsReadsZC | src/core/cpu/cpu.ts:143-159 | a condition reads only Z and C; NC and NZ are the negations of C and Z |
| AddressSpace.Write16ThenRead16 | src/core/bus.ts:40-53 | a word written with `write16` reads back with `read16` as `value & 0xffff`; only the two addressed bytes change |
| AddressSpace.Bus.ReadWord | src/core/bus.ts:40-45 | `read16` returns the little-endian word at addr and addr + 1 |
| AddressSpace.Bus.Write | src/core/bus.ts:32-38 | a byte write changes exactly the addressed byte |
| AddressSpace.Bus.WriteWord | src/core/bus.ts:47-53 | `write16` stores the low byte at addr and the high byte at addr + 1 |
| CpuCore.Cpu.constructor | src/core/cpu/cpu.ts:10-25 | a new CPU holds the given PC and SP, the given A..L (each 0 when omitted), `ime` 0, and the given bus |
| CpuCore.Cpu.SetReg | src/core/cpu/cpu.ts:100-133 | the register file after the write is `Write(old, name, val)`: the value masked to the register's width; IME is kept; the copies at src/core/cpu.ts:128-161 and packages/sm83/src/CPU.ts:75-108 do the same |
| CpuCore.Cpu.IncReg | src/core/cpu/cpu.ts:135-137 | the register becomes `(old + amount) mod width`, amount 1 when omitted; nothing else changes |
| CpuCore.Cpu.DecReg | src/core/cpu/cpu.ts:139-141 | the register becomes `(old - amount) mod width`, amount 1 when omitted; nothing else changes |
| CpuCore.Cpu.SetFlag | src/core/cpu/cpu.ts:65-73 | F holds the old flags with this one set to val, and a clear low nibble; no other register changes; the copies at src/core/cpu.ts:93-101 and packages/sm83/src/CPU.ts:40-48 do the same |
| CpuCore.CheckConditionReadsF | src/core/cpu/cpu.ts:143-159 | `check_condition` is the condition read off F's Z and C bits |
| CpuStack.Push | src/core/cpu/cpu.stack.ts:7-10 | SP drops by one (wrapping) and the byte lands at the new SP |
| CpuStack.Pop | src/core/cpu/cpu.stack.ts:12-17 | returns the byte at SP and moves SP up by one (wrapping) |
| CpuStack.Push16 | src/core/cpu/cpu.stack.ts:19-25 | the state after is `PushWord`: high byte at SP-1, low byte at SP-2; the copy at src/core/cpu.ts:22-28 does the same |
| CpuStack.Pop16 | src/core/cpu/cpu.stack.ts:27-32 | returns `(hi << 8) \| lo` with lo at SP and hi at SP+1, and leaves the state `PopWord` gives; the copy at src/core/cpu.ts:30-35 does the same |
| CpuStack.PushWordEffect | src/core/cpu/cpu.stack.ts:19-25 | after `push16(v)` SP is two lower, the high byte is at SP+1 and the low byte at SP, and nothing else changed |
| CpuStack.PopWordEffect | src/core/cpu/cpu.stack.ts:27-32 | `pop16` reads the word at SP little-endian, moves SP two up, changes nothing else |
| CpuStack.PushPopWord | src/core/cpu/cpu.stack.ts:19-32 | `pop16` after `push16(v)` returns `v & 0xffff` and restores SP, also across 0x0000 |
| Semantics.SignExtend | src/core/cpu/instruction-proc.ts:632 | `(b << 24) >> 24` is b for b < 128 and b - 256 otherwise, within -128..127 |
| InstructionProcs.ADD_A_r8 | src/core/cpu/instruction-proc.ts:7-19 | the CPU is left in the state `Exec` gives for this procedure: A and the flags of the 8-bit add of r8; 0 cycles; the copy at packages/sm83/src/instr/instr_arithmetic.ts:4-17 does the same |
| InstructionProcs.ADD_A_HL | src/core/cpu/instruction-proc.ts:22-34 | the CPU is left in the state `Exec` gives for this procedure: the add of the byte at HL; 2 cycles |
| InstructionProcs.ADD_A_n8 | src/core/cpu/instruction-proc.ts:37-50 | the CPU is left in the state `Exec` gives for this procedure: the add of the byte at PC, PC moved past it; 0 cycles |
| InstructionProcs.ADD_HL_r16 | src/core/cpu/instruction-proc.ts:53-65 | the CPU is left in the state `Exec` gives for this procedure: HL + r16 wrapped, N clear, H and C from bits 11 and 15, Z kept; 0 cycles |
| InstructionProcs.SUB_A_r8 | src/core/cpu/instruction-proc.ts:70-82 | the CPU is left in the state `Exec` gives for this procedure: A and flags of the 8-bit subtract; 0 cycles; the copy at packages/sm83/src/instr/instr_arithmetic.ts:30-43 does the same |
| InstructionProcs.SUB_A_HL | src/core/cpu/instruction-proc.ts:85-97 | the CPU is left in the state `Exec` gives for this procedure: the subtract of the byte at HL; 2 cycles |
| InstructionProcs.SUB_A_n8 | src/core/cpu/instruction-proc.ts:100-113 | the CPU is left in the state `Exec` gives for this procedure: the subtract of the byte at PC, PC moved past it; 0 cycles |
| InstructionProcs.CP_A_r8 | src/core/cpu/instruction-proc.ts:116-127 | the CPU is left in the state `Exec` gives for this procedure: the flags of the subtract, A kept; 0 cycles; the copy at packages/sm83/src/instr/instr_arithmetic.ts:50-61 does the same |
| InstructionProcs.CP_A_HL | src/core/cpu/instruction-proc.ts:130-141 | the CPU is left in the state `Exec` gives for this procedure: the compare with the byte at HL; 2 cycles |
| InstructionProcs.CP_A_n8 | src/core/cpu/instruction-proc.ts:144-156 | the CPU is left in the state `Exec` gives for this procedure: the compare with the byte at PC, PC moved past it; 0 cycles |
| InstructionProcs.POP_r16 | src/core/cpu/instruction-proc.ts:189-193 | the CPU is left in the state `Exec` gives for this procedure: the popped word in r16; 0 cycles |
| InstructionProcs.PUSH_r16 | src/core/cpu/instruction-proc.ts:198-202 | the CPU is left in the state `Exec` gives for this procedure: r16 pushed; 0 cycles |
| InstructionProcs.AND_A_r8 | src/core/cpu/instruction-proc.ts:205-215 | the CPU is left in the state `Exec` gives for this procedure: A & r8 and its flags; 0 cycles; the copy at packages/sm83/src/instr/instr_bitwise.ts:5-15 does the same |
| InstructionProcs.AND_A_HL | src/core/cpu/instruction-proc.ts:218-229 | the CPU is left in the state `Exec` gives for this procedure: A & [HL]; 2 cycles; the copy at packages/sm83/src/instr/instr_bitwise.ts:18-29 does the same |
| InstructionProcs.AND_A_n8 | src/core/cpu/instruction-proc.ts:232-243 | the CPU is left in the state `Exec` gives for this procedure: A & n8, PC moved past it; 2 cycles; the copy at packages/sm83/src/instr/instr_bitwise.ts:32-43 does the same |
| InstructionProcs.OR_A_r8 | src/core/cpu/instruction-proc.ts:246-256 | the CPU is left in the state `Exec` gives for this procedure: A | r8 and its flags; 0 cycles; the copy at packages/sm83/src/instr/instr_bitwise.ts:46-56 does the same |
| InstructionProcs.OR_A_HL | src/core/cpu/instruction-proc.ts:259-269 | the CPU is left in the state `Exec` gives for this procedure: A | [HL]; 2 cycles; the copy at packages/sm83/src/instr/instr_bitwise.ts:59-69 does the same |
| InstructionProcs.OR_A_n8 | src/core/cpu/instruction-proc.ts:272-283 | the CPU is left in the state `Exec` gives for this procedure: A | n8, PC moved past it; 2 cycles; the copy at packages/sm83/src/instr/instr_bitwise.ts:72-83 does the same |
| InstructionProcs.XOR_A_r8 | src/core/cpu/instruction-proc.ts:286-296 | the CPU is left in the state `Exec` gives for this procedure: A ^ r8 and its flags; 0 cycles; the copy at packages/sm83/src/instr/instr_bitwise.ts:86-96 does the same |
| InstructionProcs.XOR_A_HL | src/core/cpu/instruction-proc.ts:299-309 | the CPU is left in the state `Exec` gives for this procedure: A ^ [HL]; 2 cycles; the copy at packages/sm83/src/instr/instr_bitwise.ts:99-109 does the same |
| InstructionProcs.XOR_A_n8 | src/core/cpu/instruction-proc.ts:312-323 | the CPU is left in the state `Exec` gives for this procedure: A ^ n8, PC moved past it; 2 cycles; the copy at packages/sm83/src/instr/instr_bitwise.ts:112-123 does the same |
| InstructionProcs.CPL | src/core/cpu/instruction-proc.ts:326-332 | the CPU is left in the state `Exec` gives for this procedure: A complemented, N and H set; 0 cycles |
| InstructionProcs.BIT_u3_r8 | src/core/cpu/instruction-proc.ts:335-343 | the CPU is left in the state `Exec` gives for this procedure: Z from bit u3 of r8, N clear, H set; 2 cycles |
| InstructionProcs.BIT_u3_HL | src/core/cpu/instruction-proc.ts:346-354 | the CPU is left in the state `Exec` gives for this procedure: Z from bit u3 of [HL]; 2 cycles |
| InstructionProcs.RES_u3_r8 | src/core/cpu/instruction-proc.ts:357-364 | the CPU is left in the state `Exec` gives for this procedure: bit u3 of r8 cleared; 2 cycles |
| InstructionProcs.RES_u3_HL | src/core/cpu/instruction-proc.ts:367-374 | the CPU is left in the state `Exec` gives for this procedure: bit u3 of [HL] cleared; 2 cycles |
| InstructionProcs.SET_u3_r8 | src/core/cpu/instruction-proc.ts:377-384 | the CPU is left in the state `Exec` gives for this procedure: bit u3 of r8 set; 2 cycles |
| InstructionProcs.SET_u3_HL | src/core/cpu/instruction-proc.ts:387-394 | the CPU is left in the state `Exec` gives for this procedure: bit u3 of [HL] set; 2 cycles |
| InstructionProcs.DI | src/core/cpu/instruction-proc.ts:437-441 | the CPU is left in the state `Exec` gives for this procedure: IME 0; 0 cycles; the copy at packages/sm83/src/instr/instr_interrupt.ts:4-8 does the same |
| InstructionProcs.EI | src/core/cpu/instruction-proc.ts:444-448 | the CPU is left in the state `Exec` gives for this procedure: IME 1; 0 cycles |
| InstructionProcs.CALL | src/core/cpu/instruction-proc.ts:453-458 | the CPU is left in the state `Exec` gives for this procedure: the state after pushing PC + 2 and jumping to n16 (the procedure returns nothing) |
| InstructionProcs.JP_HL | src/core/cpu/instruction-proc.ts:463-467 | the CPU is left in the state `Exec` gives for this procedure: PC := HL; 0 cycles; the copy at packages/sm83/src/instr/instr_jump.ts:9-13 does the same |
| InstructionProcs.JP_n16 | src/core/cpu/instruction-proc.ts:470-475 | the CPU is left in the state `Exec` gives for this procedure: PC := the word at PC; 0 cycles |
| InstructionProcs.RET | src/core/cpu/instruction-proc.ts:486-490 | the CPU is left in the state `Exec` gives for this procedure: PC := the popped word; 0 cycles |
| InstructionProcs.LD_r8_r8 | src/core/cpu/instruction-proc.ts:497-501 | the CPU is left in the state `Exec` gives for this procedure: r8 := r8'; 0 cycles; the copy at packages/sm83/src/instr/instr_load.ts:4-8 does the same |
| InstructionProcs.LD_r8_n8 | src/core/cpu/instruction-proc.ts:504-509 | the CPU is left in the state `Exec` gives for this procedure: r8 := n8, PC past it; 2 cycles; the copy at packages/sm83/src/instr/instr_load.ts:11-16 does the same |
| InstructionProcs.LD_r16_n16 | src/core/cpu/instruction-proc.ts:512-517 | the CPU is left in the state `Exec` gives for this procedure: r16 := n16, PC past it; 2 cycles; the copy at packages/sm83/src/instr/instr_load.ts:19-24 does the same |
| InstructionProcs.LD_r16_A | src/core/cpu/instruction-proc.ts:520-525 | the CPU is left in the state `Exec` gives for this procedure: [r16] := A; 2 cycles; the copy at packages/sm83/src/instr/instr_load.ts:27-32 does the same |
| InstructionProcs.LD_HL_r8 | src/core/cpu/instruction-proc.ts:528-532 | the CPU is left in the state `Exec` gives for this procedure: [HL] := r8; 0 cycles; the copy at packages/sm83/src/instr/instr_load.ts:35-39 does the same |
| InstructionProcs.LD_HL_n8 | src/core/cpu/instruction-proc.ts:535-540 | the CPU is left in the state `Exec` gives for this procedure: [HL] := n8, PC past it; 1 cycle; the copy at packages/sm83/src/instr/instr_load.ts:42-47 does the same |
| InstructionProcs.LD_SP_n16 | src/core/cpu/instruction-proc.ts:543-548 | the CPU is left in the state `Exec` gives for this procedure: SP := n16, PC past it; 2 cycles; the copy at packages/sm83/src/instr/instr_load.ts:50-55 does the same |
| InstructionProcs.LD_A_r16 | src/core/cpu/instruction-proc.ts:551-555 | the CPU is left in the state `Exec` gives for this procedure: A := [r16]; 1 cycle; the copy at packages/sm83/src/instr/instr_load.ts:58-62 does the same |
| InstructionProcs.LD_r8_HL | src/core/cpu/instruction-proc.ts:558-562 | the CPU is left in the state `Exec` gives for this procedure: r8 := [HL]; 1 cycle; the copy at packages/sm83/src/instr/instr_load.ts:65-69 does the same |
| InstructionProcs.LD_HLI_A | src/core/cpu/instruction-proc.ts:565-570 | the CPU is left in the state `Exec` gives for this procedure: [HL] := A, then HL + 1; 1 cycle; the copy at packages/sm83/src/instr/instr_load.ts:72-79 does the same |
| InstructionProcs.LD_HLD_A | src/core/cpu/instruction-proc.ts:573-578 | the CPU is left in the state `Exec` gives for this procedure: [HL] := A, then HL - 1; 0 cycles; the copy at packages/sm83/src/instr/instr_load.ts:82-89 does the same |
| InstructionProcs.LD_A_HLI | src/core/cpu/instruction-proc.ts:581-586 | the CPU is left in the state `Exec` gives for this procedure: A := [HL], then HL + 1; 1 cycle; the copy at packages/sm83/src/instr/instr_load.ts:92-99 does the same |
| InstructionProcs.LD_A_HLD | src/core/cpu/instruction-proc.ts:589-594 | the CPU is left in the state `Exec` gives for this procedure: A := [HL], then HL - 1; 1 cycle; the copy at packages/sm83/src/instr/instr_load.ts:102-109 does the same |
| InstructionProcs.LD_SP_HL | src/core/cpu/instruction-proc.ts:597-601 | the CPU is left in the state `Exec` gives for this procedure: SP := HL; 0 cycles; the copy at packages/sm83/src/instr/instr_load.ts:112-116 does the same |
| InstructionProcs.LD_n16_SP | src/core/cpu/instruction-proc.ts:604-610 | the CPU is left in the state `Exec` gives for this procedure: SP written as a word at n16, PC past n16; 2 cycles; the copy at packages/sm83/src/instr/instr_load.ts:119-125 does the same |
| InstructionProcs.LD_n16_A | src/core/cpu/instruction-proc.ts:613-619 | the CPU is left in the state `Exec` gives for this procedure: A written with `write16` at n16, PC past n16; 2 cycles; the copy at packages/sm83/src/instr/instr_load.ts:128-134 does the same |
| InstructionProcs.LD_A_n16 | src/core/cpu/instruction-proc.ts:622-628 | the CPU is left in the state `Exec` gives for this procedure: A := [n16], PC past n16; 2 cycles; the copy at packages/sm83/src/instr/instr_load.ts:137-143 does the same |
| InstructionProcs.LD_HL_SP_E8 | src/core/cpu/instruction-proc.ts:631-643 | the CPU is left in the state `Exec` gives for this procedure: HL := SP + e8 with H and C from the unsigned low additions; 3 cycles; the copy at packages/sm83/src/instr/instr_load.ts:146-158 does the same |
| InstructionProcs.LDH_n16_A | src/core/cpu/instruction-proc.ts:646-653 | the CPU is left in the state `Exec` gives for this procedure: [0xFF00 + n8] := A, PC past n8; 3 cycles |
| InstructionProcs.NOP | src/core/cpu/instruction-proc.ts:664-666 | the CPU is left in the state `Exec` gives for this procedure: 0 cycles, nothing changed |
| InstructionProcs.CCF | src/core/cpu/instruction-proc.ts:671-675 | the CPU is left in the state `Exec` gives for this procedure: C inverted; Z, N and H kept; 0 cycles |
| InstructionProcs.SCF | src/core/cpu/instruction-proc.ts:678-684 | the CPU is left in the state `Exec` gives for this procedure: C set, N and H cleared; 0 cycles |
| InstructionProcs.Execute | src/core/cpu/cpu.ts:58 | running the entry's procedure leaves the state and returns the cycles `Exec` gives, for every procedure |
| InstructionProcs.ExecuteArithmetic | src/core/cpu/instruction-proc.ts:7-156 | the ADD, SUB and CP procedures run as `ExecArithmetic` says |
| InstructionProcs.ExecuteLogic | src/core/cpu/instruction-proc.ts:205-332 | the AND, OR, XOR and CPL procedures run as `ExecLogic` says |
| InstructionProcs.ExecuteBitOps | src/core/cpu/instruction-proc.ts:335-394 | the BIT, RES and SET procedures run as `ExecBitOps` says |
| InstructionProcs.ExecuteControl | src/core/cpu/instruction-proc.ts:189-684 | the stack, jump, interrupt, carry-flag procedures and NOP run as `ExecControl` says |
| InstructionProcs.ExecuteLoad | src/core/cpu/instruction-proc.ts:497-601 | the register loads run as `ExecLoad` says |
| InstructionProcs.ExecuteStore | src/core/cpu/instruction-proc.ts:604-653 | the memory stores and absolute loads run as `ExecStore` says |
| InstructionFacts.AluProcIsAlu | src/core/cpu/instruction-proc.ts:7-156 | every ADD/SUB/CP/AND/OR/XOR form is the ALU step on its operand: the register, the byte at HL, or the byte at PC with PC moved past it |
| InstructionFacts.AluEffect | src/core/cpu/instruction-proc.ts:7-19 | the ALU step writes only A and the four flags |
| InstructionFacts.AluProcEffect | src/core/cpu/instruction-proc.ts:22-50 | register and [HL] forms keep PC, memory and all registers but A and F; n8 forms move PC by one |
| InstructionFacts.AluProcCycles | src/core/cpu/instruction-proc.ts:7-323 | 0 cycles for register operands, 2 for [HL]; the n8 forms return 0 for ADD/SUB/CP and 2 for AND/OR/XOR |
| InstructionFacts.AddMeaning | src/core/cpu/instruction-proc.ts:7-19 | ADD: result + 256·C is exactly A + x, low-nibble sum + 16·H is exactly the sum of the low nibbles, Z iff the result is 0, N clear |
| InstructionFacts.SubMeaning | src/core/cpu/instruction-proc.ts:70-82 | SUB: result - 256·C is exactly A - x (C is the borrow), likewise H for the low nibble, Z iff A equals the operand, N set |
| InstructionFacts.CompareIsSubtractKeepingA | src/core/cpu/instruction-proc.ts:116-127 | CP sets the flags SUB would set and leaves A |
| InstructionFacts.SubtractSelf | src/core/cpu/instruction-proc.ts:70-82 | `SUB A,A` gives A = 0, Z and N set, H and C clear |
| InstructionFacts.XorSelf | src/core/cpu/instruction-proc.ts:286-296 | `XOR A,A` gives A = 0, Z set, N, H, C clear |
| InstructionFacts.AndMeaning | src/core/cpu/instruction-proc.ts:205-215 | AND: each result bit is set iff set in both; Z iff they share no set bit; H set, N and C clear |
| InstructionFacts.OrMeaning | src/core/cpu/instruction-proc.ts:246-256 | OR: each result bit is set iff set in either; Z iff both are 0; N, H, C clear |
| InstructionFacts.XorMeaning | src/core/cpu/instruction-proc.ts:286-296 | XOR: each result bit is set iff the operands differ there; Z iff they are equal; N, H, C clear |
| InstructionFacts.ComplementEffect | src/core/cpu/instruction-proc.ts:326-332 | CPL flips every bit of A, sets N and H, keeps Z and C and everything else; twice gives A back |
| InstructionFacts.TestBitEffect | src/core/cpu/instruction-proc.ts:335-354 | BIT sets Z iff the tested bit is clear, clears N, sets H, keeps C, changes nothing else |
| InstructionFacts.WriteBitRegister | src/core/cpu/instruction-proc.ts:357-384 | RES/SET on a register give bit u3 the value, keep its other bits and every other register and memory |
| InstructionFacts.WriteBitMemory | src/core/cpu/instruction-proc.ts:367-394 | RES/SET on [HL] give bit u3 of that byte the value, keep its other bits, every other byte and every register |
| InstructionFacts.SetThenReset | src/core/cpu/instruction-proc.ts:357-384 | SET then RES of one bit equals RES alone |
| InstructionFacts.Add16Carries | src/core/cpu/instruction-proc.ts:53-65 | the wrapped 16-bit sum and its carries out of bits 11 and 15 |
| InstructionFacts.AddHLEffect | src/core/cpu/instruction-proc.ts:53-65 | `ADD HL,r16` writes the wrapped sum and N, H, C and nothing else |
| InstructionFacts.AddHLMeaning | src/core/cpu/instruction-proc.ts:53-65 | new HL + 0x10000·C is exactly HL + v; low 12 bits + 0x1000·H are the sum of the low 12 bits; N clear, Z kept |
| InstructionFacts.LoadsKeepFlags | src/core/cpu/instruction-proc.ts:497-653 | no load or store except `LD HL,SP+e8` changes F, unless F is its destination |
| InstructionFacts.CopyRegister | src/core/cpu/instruction-proc.ts:497-501 | `LD r8,r8'` copies r8' into r8 and keeps every other register, memory and IME |
| InstructionFacts.LoadImmediateByte | src/core/cpu/instruction-proc.ts:504-509 | `LD r8,n8` loads the byte after the opcode and moves PC past it; the other registers are kept |
| InstructionFacts.LoadImmediateWord | src/core/cpu/instruction-proc.ts:512-517 | `LD r16,n16` loads the little-endian word after the opcode and moves PC past it; memory kept |
| InstructionFacts.CopyHLToSP | src/core/cpu/instruction-proc.ts:597-601 | `LD SP,HL` copies HL into SP and changes nothing else |
| InstructionFacts.LoadFromAbsolute | src/core/cpu/instruction-proc.ts:622-628 | `LD A,[n16]` loads the byte at the operand address, PC past the operand, memory kept |
| InstructionFacts.StoreThroughHL | src/core/cpu/instruction-proc.ts:565-578 | `LD [HL+/-],A` writes A at the old HL, then steps HL by one with wrap; nothing else changes |
| InstructionFacts.LoadThroughHL | src/core/cpu/instruction-proc.ts:581-594 | `LD A,[HL+/-]` loads the byte at the old HL, then steps HL with wrap; memory kept |
| InstructionFacts.HighPageStore | src/core/cpu/instruction-proc.ts:646-653 | `LDH [n8],A` writes A at 0xFF00 + n8 and changes no other byte or register |
| InstructionFacts.StoreAWritesTwoBytes | src/core/cpu/instruction-proc.ts:613-619 | `LD [n16],A` stores A at n16 and also a 0 at the next byte, through `write16` |
| InstructionFacts.StoreSPRoundTrip | src/core/cpu/instruction-proc.ts:604-610 | `LD [n16],SP` stores SP so that `read16` at n16 gives SP back |
| InstructionFacts.AddSpOffsetMeaning | src/core/cpu/instruction-proc.ts:631-643 | `LD HL,SP+e8`: HL is SP plus the sign-extended e8 mod 65536; Z, N clear; H, C from the unsigned low-nibble and low-byte sums |
| InstructionFacts.AddSpOffsetFrame | src/core/cpu/instruction-proc.ts:631-643 | `LD HL,SP+e8` keeps SP and the other registers and moves PC past e8 |
| InstructionFacts.PushThenPop | src/core/cpu/instruction-proc.ts:189-202 | PUSH r16 then POP r16' moves r16's value into r16' and restores SP unless r16' is SP |
| InstructionFacts.PopUndoesPush | src/core/cpu/instruction-proc.ts:189-193 | popping a pushed word into a pair puts the word there and SP back |
| InstructionFacts.PopAFUnmasked | src/core/cpu/instruction-proc.ts:189-193 | the generic `POP_r16` given AF (a dedicated POP AF is TODO) stores the popped byte in F unmasked: 0x0F on the stack gives F = 0x0F |
| InstructionFacts.CallEffect | src/core/cpu/instruction-proc.ts:453-458 | CALL pushes PC + 2 and jumps to n16: SP two lower, the return address at the new SP |
| InstructionFacts.CallThenReturn | src/core/cpu/instruction-proc.ts:453-490 | CALL then RET resumes just after CALL's operand with SP and every other register as before |
| InstructionFacts.ReturnUndoesCall | src/core/cpu/instruction-proc.ts:486-490 | RET after CALL restores every register but PC, which becomes the return address |
| InstructionFacts.JumpTargets | src/core/cpu/instruction-proc.ts:463-475 | `JP n16` jumps to the operand word, `JP HL` to HL; nothing else changes |
| InstructionFacts.InterruptEnable | src/core/cpu/instruction-proc.ts:437-448 | DI clears and EI sets IME at once; neither touches a register or memory |
| InstructionFacts.ImeOnlyByDiEi | src/core/cpu/instruction-proc.ts:437-448 | no procedure but DI and EI changes IME |
| InstructionFacts.CarryFlagOps | src/core/cpu/instruction-proc.ts:671-684 | SCF sets C and clears N and H; CCF inverts only C, so twice restores the flags; both keep Z |
| InstructionFacts.CyclesExceptCall | src/core/cpu/instruction-proc.ts:453-458 | every procedure returns a cycle count except CALL, which returns none |
| InstructionFacts.PcAdvance | src/core/cpu/instruction-proc.ts:7-684 | every procedure that does not jump leaves PC past its operand: one byte for n8/e8, two for n16, none otherwise |
| Engine.GetProc | src/core/cpu/cpu.ts:42-47 | an opcode in the table gives its entry, one outside it the `Entry not found` error for that opcode; the copy at src/core/cpu.ts:70-75 does the same |
| Engine.Fetch | src/core/cpu/cpu.ts:27-34 | the opcode is the byte at PC, or after 0xCB the next byte; PC moves one or two bytes (wrapping) and nothing else changes |
| Engine.Dispatch | src/core/cpu/cpu.ts:42-58 | runs the entry's procedure, or returns the error with nothing run |
| Engine.Step | src/core/cpu/cpu.ts:27-40 | one step leaves the state and result `StepSpec` gives: fetch, then the entry of the base or prefixed table |
| Engine.StepT | src/core/cpu.ts:55-68 | the same step returning four times the machine cycles |
| Engine.MissingEntryRunsNothing | src/core/cpu/cpu.ts:42-47 | a step fails iff the table lacks the opcode, and then only PC has moved |
| Engine.FoundEntryRuns | src/core/cpu/cpu.ts:27-58 | a found entry runs on the state after the fetch and the step returns its cycles |
| Engine.FourTimesCycles | src/core/cpu.ts:55-68 | T-cycles are four times the machine cycles and missing (NaN) iff the procedure is CALL |
| Engine.FullTablesNeverThrow | src/core/cpu/cpu.ts:42-47 | with tables covering every byte a step never fails |
| Decoder.LoadGrid | packages/sm83/src/CPU.ts:112-274 | 0x40-0x7F decode as `LD r,r'` over B,C,D,E,H,L,[HL],A, the diagonal as NOP and 0x76 unlisted |
| Decoder.AluGrid | packages/sm83/src/CPU.ts:275-370 | 0x80-0xBF decode as ADD, SUB, AND, XOR, OR, CP on B..A and [HL]; the ADC and SBC rows are unlisted |
| Decoder.ImmediateColumn | packages/sm83/src/CPU.ts:371-390 | 0xC6 + 8k decode as the n8 form of the ALU row k; 0xCE and 0xDE are unlisted |
| Decoder.UnknownOpcodes | packages/sm83/src/CPU.ts:391-392 | an opcode throws `Unknown opcode` iff the switch lists no case for it |
| Decoder.DecodesNoCallNorIme | packages/sm83/src/CPU.ts:110-393 | the switch names no CALL, DI or EI |
| Decoder.DecodedKeepsIme | packages/sm83/src/CPU.ts:110-393 | every decoded instruction returns a cycle count and leaves IME |
| Decoder.SelfLoadIsNop | packages/sm83/src/CPU.ts:112-120 | loading a register from itself is the same as NOP, so the diagonal NOPs lose nothing |
| Decoder.ExecPInstruction | packages/sm83/src/CPU.ts:396-401 | every prefixed opcode returns 0 |
| Decoder.ExecInstruction | packages/sm83/src/CPU.ts:110-393 | runs the decoded instruction, or throws with nothing changed |
| Decoder.PackageStep | packages/sm83/src/CPU.ts:21-34 | one step leaves the state and result `PackageStepSpec` gives |
| Decoder.PrefixedStepSkips | packages/sm83/src/CPU.ts:25-30 | after 0xCB the step only moves PC by two and returns 0 |
| Decoder.NopOpcodesSkip | packages/sm83/src/CPU.ts:112-120 | the NOP opcodes only move PC by one and return 0 |
| Decoder.PackageStepOutcome | packages/sm83/src/CPU.ts:21-34 | a step throws iff the opcode is unprefixed and unlisted, and then only PC has moved; otherwise it returns a number (never NaN) and keeps IME |
| GoBits.GetNthBitIsBit | utils.go:3-5 | `GetNthBit(b, n)` is true iff n < 8 and bit n of b is set |
| GoBits.SetNthBitIsWithBit | utils.go:7-13 | `SetNthBit` is the TypeScript `x \| (1 << k)` / `x & ~(1 << k)` for n < 8 and leaves b for n ≥ 8 |
| GoBits.SetNthBitBits | utils.go:7-13 | after `SetNthBit(b, n, v)` bit n reads v (n < 8) and every other bit reads as before |
| GoBits.SetNthBitTwice | utils.go:7-13 | `SetNthBit` twice on one bit equals the second call; with the same value it is idempotent |
| GoBits.Bool2Int | utils.go:15-24 | 1 exactly for true, 0 for false, the TypeScript flag weight |
| GoCore.ReadRegister | pkg/sm83/sm83.go:52-86 | byte registers widened, SP and PC as stored, a pair with its first register as the high byte; `RK_NONE` fails |
| GoCore.ReadRegisterAgrees | pkg/sm83/sm83.go:74-81 | `ReadRegister` returns what the TypeScript `get_reg` returns for the same registers |
| GoCore.SetRegisterAsWritten | pkg/sm83/sm83.go:88-140 | as written: byte registers take `value & 0xFF`, SP and PC the value, a pair puts the low byte in its first register |
| GoCore.PairWriteSwapsBytes | pkg/sm83/sm83.go:120-134 | as written, HL := 0x1234 reads back as 0x3412 |
| GoCore.SetRegisterCorrected | pkg/sm83/sm83.go:88-140 | the same write with the pair's high byte in its first register; agrees with the as-written code on every other kind |
| GoCore.ReadAfterSetRegister | pkg/sm83/sm83.go:88-140 | with the corrected pair order every write reads back: the low byte for byte registers, the whole value otherwise |
| GoCore.SetByteKeepsOthers | pkg/sm83/sm83.go:88-113 | a byte write leaves every other byte register, SP and PC |
| GoCore.SetRegisterAgrees | pkg/sm83/sm83.go:120-134 | the corrected write is the TypeScript `set_reg`; the as-written pair write differs whenever the two bytes differ |
| GoCore.CheckConditionAgrees | pkg/sm83/sm83.go:154-172 | CK_NONE always holds, an unset condition never does; C, NC, Z, NZ agree with the TypeScript `check_condition` on the same F |
| GoCore.FlagsFromBits | pkg/sm83/sm83.go:143-152 | after the loop has handled entries k..3, bit 7-i is decided by entry i ≥ k unless it is -1, and every other bit is unchanged |
| GoCore.WriteFlagsBits | pkg/sm83/sm83.go:143-152 | entries z, n, h, c decide bits 7..4: positive sets, other non -1 clears, -1 keeps; bits 0..3 never change |
| GoCore.WriteFlagsPacks | pkg/sm83/sm83.go:143-152 | with no -1 entry and a clear low nibble, F becomes the byte the TypeScript side packs from the same four flags |
| GoCore.Executed | pkg/sm83/sm83.go:272-289 | `Execute` changes no register but PC |
| GoCore.JumpLanding | pkg/sm83/sm83.go:278-285 | JP lands on `Data` iff its condition holds (always for CK_NONE, never for an unset condition), else PC + 1 wrapped; 4 cycles iff taken |
| GoCore.Sm83.SetRegister | pkg/sm83/sm83.go:88-140 | the register file becomes the corrected `SetRegister` result; `RK_NONE` fails and changes nothing |
| GoCore.Sm83.WriteFlags | pkg/sm83/sm83.go:143-152 | F becomes `WrittenFlags(old F, bits)`; nothing else changes |
| GoCore.Sm83.Execute | pkg/sm83/sm83.go:272-289 | the registers become `Executed(...)` and the cycle counter grows by `ExecutedCycles(...)` |

## Left out

- The opcode tables `INSTRUCTION_SET` and `PINSTRUCTION_SET` (`src/core/cpu/instruction-set.ts`) are not part of this model. `Engine.Step` takes both tables as parameters, so its properties hold for any table contents.
- Bus address decoding (`src/core/bus.ts`) is not modelled. The real bus serves only 0x0000-0x7FFF from the ROM, reads 0 elsewhere and drops writes there. The model's memory is a flat, writable 65536-byte array. The second byte of a 16-bit access at 0xFFFF wraps to 0x0000, where JavaScript would pass 0x10000 to the bus.
- `console.log` in `get_proc` and `console.warn` in the bus are left out: they only trace.
- The `ei` field of `Cpu` (`src/core/cpu/cpu.ts:11`) is left out: no modelled procedure reads or writes it.
- The procedures still marked TODO in `src/core/cpu/instruction-proc.ts` (ADC, SBC, INC, DEC, JR, the conditional jumps and calls, RETI, RST, HALT, rotates and shifts) have no code, so there is nothing to model.
- Three package instruction groups are missing from `packages/sm83/src/instr/`, although the `switch` calls them: the ADD, SUB and CP forms on `[HL]` and `n8` (TODO comments) and `NOP`. The model runs the TypeScript core procedures of the same names for them. EI is missing from `instr/` as well, but the `switch` never calls it (`Decoder.DecodesNoCallNorIme`).
- The package `CPU` class declares no `ime`, but its `DI` assigns one. The model's machine always carries IME, and `Decoder.PackageStepOutcome` proves that the decoded instructions never change it.
- The package `MemoryLike` interface is modelled by the same 65536-byte bus.
- `CALL` of `src/core/cpu/instruction-proc.ts` returns nothing. Run by the step of `src/core/cpu.ts`, `undefined` times four would be NaN; the model keeps that as a missing cycle count (`None`).
- Engine.StepT: `src/core/cpu.ts` imports `./instruction-proc` and `./instruction-set` from `src/core/`, which are not part of this model, and its `CPU` offers `getR`/`setR` where the modelled procedures call `getReg`/`setReg`. StepT and Engine.FourTimesCycles run the procedures of `src/core/cpu/instruction-proc.ts` in their place, assuming the two behave alike.
- The thrown errors `Entry not found` and `Unknown opcode` become `Failure` results. The state at the throw is kept: PC has already moved past the opcode.
- The Go `FetchInstruction`, `FetchData`, `Step`, `Print` and `PrintAndDie` are left out: they fetch through memory the Go engine does not define here, or print and exit the process. `Data` and `CurrentInstruction` are fields the caller sets.
- `ReadRegister` and `SetRegister` exit the process on an unknown register. The model turns that exit into a `Failure` on `RK_NONE`.
- The Go enums are strings. `ConditionKind` gets a constructor `Unset` for every string other than the five constants; its `CheckCondition` is false. The program reaches it: the `InstructionMap` entry of 0xE9 (JP HL, `pkg/sm83/instruction_map.go:10`) sets no condition, so its JP never jumps and only steps PC (`GoCore.JumpLanding`). `InstructionKind` holds only NOP and JP, so the "not implemented" exit of `Execute` cannot be reached in the model. The `AM`, `R1` and `R2` fields of `Instruction` are read only by `FetchData` and are left out.
- GoBits: the bit index `n` of `GetNthBit` and `SetNthBit` is a `nat`. Go's `byte(1) << n` panics for a negative `n`; that panic is not modelled.
- CpuCore.Cpu.constructor: the optional A..L arguments are bytes. JavaScript would store any number given there unmasked; register values outside 0..255 are not modelled.
- The Go `Cycles` counter is an unbounded integer: the model does not wrap it at 64 bits.
- GoCore.Sm83.SetRegister: implements the corrected byte order for register pairs; the order as written is `GoCore.SetRegisterAsWritten` (see Findings).
- GoCore.Sm83.WriteFlags: takes the four entries as a sequence of length 4 in place of a Go array.
- InstructionFacts.LoadImmediateWord: does not state the case r16 = PC, where the load is overtaken by the PC step after it.

## Findings

| source | as written | input that shows it | evidently intended | confidence | as-written member | corrected member |
|---|---|---|---|---|---|---|
| pkg/sm83/sm83.go:120-134 | a pair write puts `uint8(value)`, the low byte, in the pair's first register and `value >> 8` in its second | `SetRegister(RK_HL, 0x1234)` then `ReadRegister(RK_HL)` gives 0x3412 | the high byte in the first register, as `ReadRegister` (sm83.go:74-81) and the TypeScript `set_reg` read it | high; not executed | GoCore.PairWriteSwapsBytes | GoCore.SetRegisterCorrected |
