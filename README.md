# GB_EMU core in Dafny

This project models the machine core of GB_EMU, a Game Boy (DMG) emulator
written in C++. It covers:

- the SM83 CPU's register file and flags;
- the 256-entry opcode table, the addressing-mode operand fetch, every
  instruction handler including the CB-prefixed group;
- interrupt requests and servicing, and HALT;
- the memory bus with its OAM DMA state machine;
- work RAM, video RAM and high RAM with their bank translation, OAM and the
  two IO register dispatchers;
- the LCD register predicates, the DIV/TIMA timer, the cartridge header
  getters and the cartridge read/write paths;
- the emulator clock (`EMU::Cycle`) and the serial debug sink (`EMU::DebugUpdate`).

The model has two layers.

- **Value layer.** A machine is a `State` record. It holds the CPU
  latches and registers, and the memory record: IF, IE, the DMA registers,
  the timer, RAM, OAM, the serial bytes and the cartridge. It also holds
  the 32-bit cycle counter and the debug buffer. Every operation is a
  function from a machine to `Result<Machine>`. A `Fail` stands for the
  source's fatal exits: `NO_IMPL`, `__debugbreak`, `exit(-7)`, an
  out-of-range `std::array` index, or a debug-buffer overflow. Each handler
  spends machine cycles through `Emu.Cycle` in the order the source calls
  `EMU::Cycle`, so the timer and DMA advance in step with the registers.
- **Object layer.** `Console.GameBoy` is a class. It holds the same state
  in fields and arrays: RAM banks, OAM, ext-RAM, serial bytes and the debug
  buffer. Its methods are the source's in-place operations: the bus, the
  timer, DMA, `EMU::Cycle`, the debug sink, the stack, interrupts and
  `CPU::Step`. Each method is proved against the value function it
  implements. Its `ensures` says the method fails exactly when the function
  fails, and otherwise leaves `Snapshot()` equal to the function's result.
  `CpuRegisters.CpuRegisters` is the mutable `CPU_Registers` struct.

Integers are unbounded in Dafny. `u8`/`u16`/`u32`/`i8` are subset types,
and every wrap-around of the source is written out (`Wrap16`, `Wrap32`,
`% 0x100`).

Where the two disagree, the model follows the code:

- Opcodes with empty table entries decode as NOP with implied addressing
  and execute as NOP. They are not a fatal error.
- DIV increments every 255 timer ticks (`divCounter >= 255`), and 0xFF04
  reads `div >> 8`.
- The bus reaches IO through lib/io.cpp. That is the variant that matches
  the IO class's header and starts DMA on 0xFF46. emulator/io.cpp is
  modelled alongside it, and `Io.VersionsAgree` states where the two differ.
- One exception: the OAM DMA copy. As written, emulator/bus.cpp:110 stores
  each byte through `WriteOAM_Byte` with the bare offset, which subtracts
  0xFE00 (emulator/ppu.cpp:14), so every copy tick writes out of range
  (`Bus.DmaTickAsWritten`, see Findings). Emu.MachineCycle,
  Console.GameBoy.MachineCycle, Console.GameBoy.DmaTick and
  Console.GameBoy.StoreDmaByte, and so every instruction handler, Emu.Cycle
  and Console.GameBoy.Cycle, run the intended copy to OAM index `offset`.
- `Cartridge::ValidateChecksum` is modelled as written. It does not compare
  against the stored checksum (see Findings).

## Model

| member | source | states |
|---|---|---|
| Types.IntBitsAreSingleBits | include/types.h:114-121 | each interrupt source's value is the single bit at its index, so IF/IE tests for distinct sources are disjoint |
| Types.WordRegistersAfterByteRegisters | include/types.h:35-52 | `type >= AF` holds exactly for AF, BC, DE, HL, SP and PC |
| Types.CbShiftsContiguous | include/types.h:90-101 | the enumerators RLC..SRL follow one another, so `RLC + k` names the k-th CB shift |
| Types.CbBitOpsContiguous | include/types.h:90-101 | BIT, RES, SET follow the shifts, so `BIT + j` names the j-th bit operation and nothing lies past SET |
| Types.InstrFromOrd | include/types.h:56-102 | casting an integer back to an instruction type yields the enumerator with that value, and none past the last enumerator |
| Types.InstrOrdRoundTrip | include/types.h:56-102 | every instruction-type enumerator converts to its value and back to itself |
| Types.InstrOrdInjective | include/types.h:56-102 | distinct instruction-type enumerators have distinct values |
| Types.ZeroEnumerators | include/types.h:12 | NOP, IMP and NONE are the zero enumerators, so a value-initialised instruction is {NOP, IMP, NONE, NONE, NONE, 0} |
| Types.LcdEnumerations | include/types.h:123-137 | LCD modes are HBLANK=0..XFER=3, and the STAT interrupt sources are bits 3..6 |
| Registers.IsWordSizeExactly | include/cpu.h:111-115 | IsWordSize holds iff the register is AF, BC, DE, HL, SP or PC; every other register names at most one byte cell |
| Registers.ReadAfterWrite | include/cpu.h:34-95 | Read after Write returns the value masked to the register's width (`& 0xFF` for byte registers); Read(NONE) is 0 and Write(NONE) changes nothing |
| Registers.PairRoundTrip | include/cpu.h:38-95 | writing AF, BC, DE or HL splits the word high byte first, and `Read(hi) * 0x100 + Read(lo)` and `Read(pair)` both give it back |
| Registers.WriteWordRegister | include/cpu.h:92-93 | writing SP or PC stores the full 16-bit value in that field and changes no other |
| Registers.WriteFrame | include/cpu.h:57-95 | a write leaves every register that shares no byte cell with the target as it was |
| Registers.IncrementDecrementWrap | include/cpu.h:97-110 | Increment and Decrement wrap modulo 2^16 for word registers and modulo 2^8 for byte registers |
| Registers.IncrementDecrementFrame | include/cpu.h:97-110 | Increment and Decrement change no register outside the one they name |
| Registers.ApplyFlagBits | include/cpu.h:136-185 | one SetFlag step sets bit k for a nonzero argument, clears it for 0, keeps it for -1, and keeps every other bit of F |
| Registers.SetFlagsIsBitwise | include/cpu.h:136-185 | the four bit-by-bit SetFlag writes, Z first, give the byte the model's SetFlags computes |
| Registers.SetFlagsTriState | include/cpu.h:136-185 | SetFlags is tri-state per flag (-1 keeps, 0 clears, nonzero sets), the getters read back the new flags, bits 0-3 of F never change, and no other register changes |
| Registers.FlagGetters | include/cpu.h:116-134 | the Z, N, H, C getters return bits 7, 6, 5, 4 of F as 0 or 1; Z is set iff F >= 0x80 |
| Registers.Expected | include/cpu.h:136-185 | the value a flag takes after a tri-state write is 0 or 1 when the old value was |
| CpuRegisters.CpuRegisters.constructor | emulator/cpu_registers.cpp:5-67 | the struct's fields hold the given register file |
| CpuRegisters.CpuRegisters.Read | emulator/cpu_registers.cpp:5-26 | the fields read as the register file reads: pairs joined high byte first, byte registers below 0x100 |
| CpuRegisters.CpuRegisters.Write | emulator/cpu_registers.cpp:28-67 | the fields after the write are the register file after Write: byte registers masked, pairs split high byte first, SP/PC whole |
| CpuRegisters.CpuRegisters.Increment | emulator/cpu_registers.cpp:69-74 | read-modify-write through Write: the register file after Increment |
| CpuRegisters.CpuRegisters.Decrement | emulator/cpu_registers.cpp:76-81 | read-modify-write through Write: the register file after Decrement |
| CpuRegisters.CpuRegisters.IncrementPC | emulator/cpu_registers.cpp:83-86 | PC becomes (PC + 1) mod 2^16 and nothing else changes |
| CpuRegisters.CpuRegisters.SetPC | emulator/cpu_registers.cpp:88-91 | only PC changes, to the given value |
| CpuRegisters.CpuRegisters.GetPC | emulator/cpu_registers.cpp:93-96 | returns PC as the register file reads it |
| CpuRegisters.CpuRegisters.IsWordSize | emulator/cpu_registers.cpp:98-101 | holds iff the register is AF, BC, DE, HL, SP or PC |
| CpuRegisters.CpuRegisters.GetZeroFlag | emulator/cpu_registers.cpp:141-144 | the register file's Z flag, bit 7 of F |
| CpuRegisters.CpuRegisters.GetSubtractionFlag | emulator/cpu_registers.cpp:136-139 | the register file's N flag, bit 6 of F |
| CpuRegisters.CpuRegisters.GetHalfCarryFlag | emulator/cpu_registers.cpp:131-134 | the register file's H flag, bit 5 of F |
| CpuRegisters.CpuRegisters.GetCarryFlag | emulator/cpu_registers.cpp:126-129 | the register file's C flag, bit 4 of F |
| CpuRegisters.CpuRegisters.SetFlags | emulator/cpu_registers.cpp:103-109 | only F changes, to the four SetFlag writes of the arguments converted to u8 |
| CpuRegisters.CpuRegisters.SetFlag | emulator/cpu_registers.cpp:111-124 | only F changes: bit k is set for a nonzero u8 and cleared for 0; the `!= -1` test never fails for a u8 |
| CpuRegisters.SetFlagsKeepIsLost | emulator/cpu_registers.cpp:111-124 | SetFlags(-1, -1, -1, -1) here sets bits 4-7 and keeps bits 0-3, while the CPU's register file keeps all of F |
| CpuRegisters.SetFlagsKeepCounterexample | emulator/cpu_registers.cpp:111-124 | from F = 0, "keep every flag" yields F = 0xF0 |
| CpuRegisters.SetFlagsAgreeOnDefinite | emulator/cpu_registers.cpp:103-124 | with no -1 argument, this SetFlags and the CPU's agree |
| Instructions.GetInstruction | emulator/instructions.cpp:396-404 | the opcode's table entry, None (null) past the end of the table |
| Instructions.TableShape | emulator/instructions.cpp:10-300 | the table has 16 rows of 16 entries, so every u8 opcode has a non-null entry |
| Instructions.LdBlock | emulator/instructions.cpp:84-153 | for 0x40-0x7F except 0x76, LD with destination `(op>>3)&7` and source `op&7` of {B, C, D, E, H, L, (HL), A}; (HL) source is R_MR, (HL) destination is MR_R |
| Instructions.HaltAt76 | emulator/instructions.cpp:140 | 0x76 is HALT |
| Instructions.AluBlock | emulator/instructions.cpp:156-226 | 0x80-0xBF apply ADD, ADC, SUB, SBC, AND, XOR, OR, CP by `(op>>3)&7` to A and the operand `op&7`, with (HL) as R_MR |
| Instructions.UndefinedOpcodesAreNop | emulator/instructions.cpp:250-297 | the eleven unassigned opcodes decode as NOP with implied addressing |
| Instructions.RstTargets | emulator/instructions.cpp:236-299 | RST at 0xC7 + 8k carries param 8k and no condition |
| Instructions.ConditionOrder | emulator/instructions.cpp:48-259 | conditional JR at 0x20/0x28/0x30/0x38 and RET/JP/CALL at 0xC0-0xDC carry NZ, Z, NC, C in that order |
| Instructions.PrefixAndWordLoads | emulator/instructions.cpp:13-240 | 0xCB is the prefix with D8 mode; 0x01/0x11/0x21/0x31 load BC/DE/HL/SP via R_D16 |
| CpuState.InitialValues | emulator/cpu.cpp:22-33 | the constructor leaves PC=0x0100, SP=0xFFFE, AF=0x01B0, BC=0x0013, DE=0x00D8, HL=0x014D, not halted, IME and pending enable clear, no instruction |
| CpuState.InterruptTests | emulator/cpu.cpp:206-224 | IsInterruptSet/IsInterruptEnabled test the source's own bit of the flags byte |
| CpuState.RequestInterruptEffect | emulator/cpu.cpp:271-276 | ORing a source into IF sets its bit, keeps every other bit, and is idempotent |
| CpuState.AcknowledgeInterruptEffect | emulator/cpu.cpp:248-268 | ANDing IF with the complement of a source's bit clears that bit only |
| Alu.CbBitIndex | emulator/cpu_proc.cpp:458-569 | `(op >> 3) & 7` is the bit index, below 8 |
| Alu.AddExact | emulator/cpu_proc.cpp:245-295 | on bytes, ADD/ADC's C is the ninth bit of the exact sum, the byte result the rest, H the carry out of the low nibble |
| Alu.SubExact | emulator/cpu_proc.cpp:297-341 | on bytes, SUB/SBC's C is the borrow the exact difference needs to reach the byte result, H the low-nibble borrow |
| Alu.HalfCarryIsCarryIntoBit4 | emulator/cpu_proc.cpp:245-295 | H of ADD/ADC equals bit 4 of `x ^ y ^ (x + y + carry)`, the carry into bit 4 |
| Alu.HalfBorrowIsBorrowFromBit4 | emulator/cpu_proc.cpp:297-341 | H of SUB/SBC equals bit 4 of `x ^ y ^ (x - y - carry)` |
| Alu.RotateInverse | emulator/cpu_proc.cpp:488-503 | RLC and RRC undo each other, and both put the bit that wrapped around into C |
| Alu.RotateThroughCarryInverse | emulator/cpu_proc.cpp:504-521 | RL and RR undo each other: value and carry come back |
| Alu.ShiftArithmetic | emulator/cpu_proc.cpp:522-553 | SLA doubles and SRL halves exactly, the shifted-out bit in C; SRA halves the signed value, rounding down |
| Alu.SwapNibbles | emulator/cpu_proc.cpp:539-545 | SWAP exchanges the nibbles; swapping twice is the identity |
| Alu.CbDecode | emulator/cpu_proc.cpp:458-486 | the operand is {B, C, D, E, H, L, (HL), A}[op & 7]; below 0x40 the operation is the (op >> 3)-th of RLC..SRL, from 0x40 BIT/RES/SET by `op >> 6` with bit `(op >> 3) & 7` |
| Alu.CbComputeDefined | emulator/cpu_proc.cpp:486-569 | the CB operation reaches the NO_IMPL default exactly for a kind outside the CB group |
| Alu.BitClearIsBit | emulator/cpu_proc.cpp:564-569 | BIT's test holds exactly when the tested bit is clear |
| Alu.CbBitTest | emulator/cpu_proc.cpp:564-569 | BIT's effect is a test, with no value to store, whose Z condition holds iff the tested bit is clear |
| Alu.CbSetBit | emulator/cpu_proc.cpp:559-563 | SET changes only the named bit, to 1, and leaves F alone |
| Alu.CbResetBit | emulator/cpu_proc.cpp:554-558 | RES changes only the named bit, to 0, and leaves F alone |
| CpuProc.CbRegister | emulator/cpu_proc.cpp:454-586 | on a register operand, CB spends two cycles and touches no memory; the NO_IMPL default is the InvalidCbOpcode fault, otherwise the registers become `CbRegs` of the operation on the register's value and C |
| CpuProc.CbRegsEffect | emulator/cpu_proc.cpp:486-586 | on a register operand, BIT changes only F (Z from the test, N = 0, H = 1, C kept); every other operation writes its value to the register and changes no other register but F; RES and SET keep F; the shifts and SWAP set Z from the value, clear N and H, and set C from the bit shifted out |
| CpuProc.CbBitRegister | emulator/cpu_proc.cpp:454-586 | BIT, RES and SET on a register, whole handler: two cycles, no fault, no memory touched; BIT changes only F, with Z set iff the bit is clear, N = 0, H = 1, C kept; RES and SET change only the named bit of the register, to 0 and to 1, and keep F |
| CpuProc.CbBitRegs | emulator/cpu_proc.cpp:554-585 | the register side of BIT, RES and SET: no fault, and the outcome `CbBitRegister` states |
| CpuProc.CbStoreBits | emulator/cpu_proc.cpp:554-563 | RES and SET store the operand with only the named bit replaced, by 0 and by 1, and set no flags |
| Alu.DaaCorrectionValues | emulator/cpu_proc.cpp:708-735 | the DAA correction is 0x00, 0x06, 0x60 or 0x66, and C is set exactly when the 0x60 part is used |
| Alu.ToBcdDenotes | emulator/cpu_proc.cpp:708-735 | the BCD byte built from n < 100 has high digit n / 10 and low digit n % 10 |
| Alu.DaaAfterBcdAdd | emulator/cpu_proc.cpp:708-735 | after ADD of two BCD bytes, DAA leaves the BCD digits of the decimal sum modulo 100 and sets C iff the sum reached 100 |
| CpuProc.FlagBits | emulator/cpu_proc.cpp:638-661 | `F & 0xF0` clears the four low bits and keeps the flag nibble |
| CpuProc.DispatchEnable | emulator/cpu.cpp:151-152 | proof step: EI is executed by the EI/DI handler |
| CpuProc.DispatchDisable | emulator/cpu.cpp:151-152 | proof step: DI is executed by the EI/DI handler |
| CpuProc.AddRegsOnA | emulator/cpu_proc.cpp:245-295 | byte ADD/ADC on A: A and C together hold the exact sum, Z iff A is 0, N = 0, H the low-nibble carry; only A and F change, F's low nibble kept |
| CpuProc.SubRegsOnA | emulator/cpu_proc.cpp:297-323 | byte SUB on A: A less 0x100 times C is the exact difference, Z iff A is 0, N = 1, H the low-nibble borrow; only A and F change |
| CpuProc.SbcRegsOnA | emulator/cpu_proc.cpp:325-341 | SBC on A: as SUB with the carry flag subtracted from the difference and the nibble test |
| CpuProc.CompareRegsOnByte | emulator/cpu_proc.cpp:623-636 | CP changes only F: Z iff A equals the operand, N = 1, H the nibble borrow, C iff A is below it; the same F as SUB without the store |
| CpuProc.AddByte | emulator/cpu_proc.cpp:245-277 | ADD A,r8 spends one machine cycle and applies the byte-add register effect, nothing else in the CPU changes |
| CpuProc.AdcByte | emulator/cpu_proc.cpp:279-295 | ADC A,r8 spends one cycle and applies the byte-add effect with C as carry in |
| CpuProc.AddToHL | emulator/cpu_proc.cpp:245-277 | ADD HL,rr spends two cycles (one more than the byte form) and applies AddWordRegs |
| CpuProc.AddWordRegsOnHL | emulator/cpu_proc.cpp:256-272 | ADD HL,rr: HL gets the sum mod 2^16, C iff it overflowed 16 bits, Z kept, N = 0, H the carry out of bit 11; only H, L and F change |
| CpuProc.AddToSP | emulator/cpu_proc.cpp:245-277 | ADD SP,e spends three cycles and applies AddSPRegs |
| CpuProc.AddSPRegsEffect | emulator/cpu_proc.cpp:256-272 | ADD SP,e: SP moves by the signed byte mod 2^16, Z = N = 0, H and C from the unsigned low nibble and low byte; only SP and F change |
| CpuProc.IncDecByte | emulator/cpu_proc.cpp:181-243 | INC/DEC of a byte register: ±1 mod 0x100, Z iff 0, N = 0 for INC and 1 for DEC, H iff the low nibble was 0xF (INC) or 0 (DEC), C kept, one cycle, nothing else changes |
| CpuProc.IncDecRegsEffect | emulator/cpu_proc.cpp:181-243 | the register side of IncDecByte on any register file |
| CpuProc.IncDecWord | emulator/cpu_proc.cpp:181-243 | INC/DEC of a 16-bit register: ±1 mod 2^16, F and every other register unchanged, two cycles |
| CpuProc.LoadRegister | emulator/cpu_proc.cpp:117-163 | LD into a register: one cycle, HL stepped for the (HL+)/(HL-) forms, the operand written to the target, which reads it back masked to its width |
| CpuProc.LoadToMemory | emulator/cpu_proc.cpp:117-163 | LD from a byte register into memory: HL stepped, two cycles, then the operand's low byte written through the bus at the latched address |
| CpuProc.LogicStep | emulator/cpu_proc.cpp:588-621 | AND/OR/XOR spend one cycle and apply the logic effect of the bitwise result; any other type reaching the handler is a fault |
| CpuProc.LogicEffect | emulator/cpu_proc.cpp:588-621 | every bit of the new A is the operation on the bits of A and the operand; Z iff A is 0, H only for AND, N = C = 0, only A and F change |
| CpuProc.LogicRegsEffect | emulator/cpu_proc.cpp:588-621 | the logic register effect writes A and F, Z from the result, N and C cleared |
| CpuProc.XorSelfClears | emulator/cpu_proc.cpp:607-611 | XOR A,A clears A and sets Z |
| CpuProc.ComplementEffect | emulator/cpu_proc.cpp:699-707 | CPL: A becomes 0xFF - A, bit by bit its complement; N and H set, Z and C kept |
| CpuProc.ComplementTwice | emulator/cpu_proc.cpp:699-707 | CPL twice restores A |
| CpuProc.CarryFlagEffect | emulator/cpu_proc.cpp:736-743 | SCF sets C, CCF complements it, both clear N and H and keep Z; only F changes |
| CpuProc.ComplementCarryTwice | emulator/cpu_proc.cpp:736-743 | CCF twice restores C |
| CpuProc.RotateRegsEffect | emulator/cpu_proc.cpp:343-366 | a rotation of A stores the rotated byte, clears Z, N and H, and puts the bit shifted out in C |
| CpuProc.RotateCircularRoundTrip | emulator/cpu_proc.cpp:343-366 | RRCA undoes RLCA and RLCA undoes RRCA |
| CpuProc.RotateThroughCarryRoundTrip | emulator/cpu_proc.cpp:675-698 | RRA undoes RLA and RLA undoes RRA, A and C together |
| CpuProc.RotateEffect | emulator/cpu_proc.cpp:343-366 | RLCA, RRCA, RLA and RRA spend one cycle and apply the rotation's register effect |
| CpuProc.AddThenDaa | emulator/cpu_proc.cpp:708-735 | ADD of two BCD operands then DAA leaves the BCD decimal sum mod 100 in A, C iff the sum reached 100, Z iff A is 0 |
| CpuProc.DaaRegsEffect | emulator/cpu_proc.cpp:708-735 | DAA's register side: A corrected, Z from it, N kept, H cleared, C the high-digit correction |
| CpuProc.RegisterHandlers | emulator/cpu_proc.cpp:623-743 | CPL, SCF/CCF, DAA and CP spend one cycle and apply their register functions |
| CpuProc.IdleCycle | emulator/emu.cpp:95-113 | with no DMA transfer running, cycles cannot fault and start none |
| CpuProc.JumpRegister | emulator/cpu_proc.cpp:368-394 | when its cycle does not fault (it never does with no DMA running, `CpuProc.IdleCycle`), JP HL puts HL into PC in one cycle |
| CpuProc.JumpTaken | emulator/cpu_proc.cpp:368-394 | when its two cycles do not fault, JP/JR whose condition holds put the target in PC (for JR, PC plus the signed offset, mod 2^16) and spend two cycles |
| CpuProc.JumpNotTaken | emulator/cpu_proc.cpp:368-394 | when its cycle does not fault, JP/JR whose condition fails only record the target and spend one cycle |
| CpuProc.CallTaken | emulator/cpu_proc.cpp:396-415 | with the stack in RAM and no DMA running, CALL/RST with the condition met push PC below SP, lower SP by two and jump (RST to param), four cycles |
| CpuProc.CallNotTaken | emulator/cpu_proc.cpp:396-415 | when its cycle does not fault, CALL with the condition not met only records the target, one cycle |
| CpuProc.ReturnTaken | emulator/cpu_proc.cpp:417-438 | with the stack in RAM and no DMA running, RET/RETI with the condition met pop the word at SP into PC and raise SP by two; four cycles, five if conditional; RETI raises the pending enable |
| CpuProc.ReturnNotTaken | emulator/cpu_proc.cpp:417-438 | when its cycles do not fault, RET with the condition not met spends two cycles and changes no register; RETI still raises the pending enable |
| CpuProc.CallReturnRoundTrip | emulator/cpu_proc.cpp:396-438 | with the stack in RAM and no DMA running, an unconditional CALL then RET gives every register back: PC after the call, SP as before |
| CpuProc.EnableDisableEffect | emulator/cpu_proc.cpp:440-452 | when its cycle does not fault, EI raises only the pending enable; DI clears it and IME; one cycle either way |
| CpuProc.PushEffect | emulator/cpu_proc.cpp:638-661 | with the stack in RAM and no DMA running, PUSH rr writes the word below SP, lowers SP by two, four cycles |
| CpuProc.PopEffect | emulator/cpu_proc.cpp:638-661 | with the stack in RAM and no DMA running, POP rr reads the word at SP into the register (F's low nibble cleared for AF), raises SP by two, three cycles |
| CpuProc.PushPopRoundTrip | emulator/cpu_proc.cpp:638-661 | with the stack in RAM and no DMA running, PUSH rr then POP rr restores every register, except that POP AF clears F's low nibble |
| CpuProc.PairRestore | emulator/cpu_proc.cpp:652-658 | writing a pair back with its own value restores the register file; for AF only F's flag bits survive |
| CpuMemory.ReadBytePC | emulator/cpu.cpp:173-178 | the byte at PC, and the machine with PC + 1 mod 2^16 and nothing else changed |
| CpuMemory.SetMemDest | emulator/cpu.cpp:190-194 | latches the address as the memory destination and changes nothing else |
| CpuMemory.WriteMem | emulator/bus.cpp:47-80 | a CPU bus write fails as the bus fails, otherwise only the memory half changes |
| CpuMemory.ReadWordPCEffect | emulator/cpu.cpp:180-188 | ReadWordPC returns `lo + hi * 0x100` from PC and PC + 1, leaves PC two further, changes nothing else |
| CpuMemory.PushByteEffect | emulator/cpu_proc.cpp:8-13 | with SP - 1 in RAM, Stack_PushByte lowers SP by one and writes the byte there, nothing else |
| CpuMemory.PushWordEffect | emulator/cpu_proc.cpp:15-24 | Stack_PushWord writes the high byte at SP-1, the low byte at SP-2, lowers SP by two |
| CpuMemory.PushWordToRam | emulator/cpu_proc.cpp:15-24 | with the stack in RAM, Stack_PushWord is two RAM writes below SP and SP two lower |
| CpuMemory.PopByteEffect | emulator/cpu_proc.cpp:26-33 | from a readable address, Stack_PopByte returns the byte at SP and raises SP by one |
| CpuMemory.PopByteFromRam | emulator/cpu_proc.cpp:26-33 | with SP in RAM, Stack_PopByte returns the RAM byte at SP, raises SP by one and changes nothing else |
| CpuMemory.PopWordEffect | emulator/cpu_proc.cpp:35-45 | from readable addresses, Stack_PopWord reads the low byte at SP and the high byte at SP + 1, raises SP by two |
| CpuMemory.PopWordFromRam | emulator/cpu_proc.cpp:35-45 | with the stack in RAM, Stack_PopWord joins the RAM bytes at SP and SP + 1 and raises SP by two |
| CpuMemory.PushPopRoundTrip | emulator/cpu_proc.cpp:8-45 | a pop after a push returns the pushed word, restores SP and every register |
| CpuMemory.InitialStackInRam | emulator/cpu.cpp:22-33 | the constructor's SP 0xFFFE lies in high RAM |
| CpuMemory.ConditionFlags | emulator/cpu_proc.cpp:47-59 | each condition tests a flag, NZ/NC are the negations of Z/C, NONE always holds |
| CpuFetch.Reset | emulator/cpu_fetch.cpp:16-23 | no memory destination, nothing fetched, the rest unchanged |
| CpuFetch.FetchInstructionEffect | emulator/cpu_fetch.cpp:8-12 | latches the opcode at PC and its non-null table entry and moves PC on by one; memory and clock unchanged |
| CpuFetch.FetchDataCase | emulator/cpu_fetch.cpp:14-155 | proof step: FetchData is its reset followed by the case of the addressing mode |
| CpuFetch.FetchNothing | emulator/cpu_fetch.cpp:16-23 | with a null instruction FetchData only resets |
| CpuFetch.FetchRegister | emulator/cpu_fetch.cpp:25-40 | IMP, R_R and R fetch nothing or a register, with no memory access, PC unchanged, no cycle |
| CpuFetch.FetchFromHL | emulator/cpu_fetch.cpp:41-48 | R_HLI/R_HLD read the byte at HL in one cycle, PC unchanged |
| CpuFetch.FetchToHL | emulator/cpu_fetch.cpp:49-57 | HLI_R/HLD_R latch HL as destination and fetch the source register, no cycle |
| CpuFetch.FetchByteImmediate | emulator/cpu_fetch.cpp:75-120 | D8, R_D8, R_A8, HL_SPD read the byte at PC, PC + 1, one cycle |
| CpuFetch.FetchWordImmediate | emulator/cpu_fetch.cpp:121-127 | R_D16 and D16 read the little-endian word at PC, PC + 2, two cycles |
| CpuFetch.FetchFromAbsolute | emulator/cpu_fetch.cpp:128-135 | R_A16 reads the word at PC, then the byte at that address, three cycles in all |
| CpuFetch.FetchToAddress | emulator/cpu_fetch.cpp:58-66 | A16_R/D16_R latch the word at PC as destination and fetch the source register, PC + 2, one cycle |
| CpuFetch.FetchToHighPage | emulator/cpu_fetch.cpp:67-74 | A8_R latches `0xFF00 + byte` of the byte at PC as destination, one cycle |
| CpuFetch.FetchRegisterToMemory | emulator/cpu_fetch.cpp:81-95 | MR_R latches the first register, `0xFF00 + C` for C, and fetches the second; no cycle, no PC move |
| CpuFetch.FetchFromRegisterAddress | emulator/cpu_fetch.cpp:103-114 | R_MR reads the byte at the second register, at `0xFF00 + C` for C, in one cycle |
| CpuFetch.FetchImmediateToMemory | emulator/cpu_fetch.cpp:136-143 | MR_D8 reads the byte at PC (one cycle) and latches the register as destination |
| CpuFetch.FetchMemoryOperand | emulator/cpu_fetch.cpp:144-150 | MR latches the register as destination and reads the byte there, one cycle |
| CpuFetch.DestIsMemExactly | emulator/cpu_fetch.cpp:25-155 | FetchData sets the memory-destination flag exactly for HLI_R, HLD_R, A16_R, D16_R, A8_R, MR_R, MR_D8 and MR |
| CpuFetch.DestLatched | emulator/cpu_fetch.cpp:49-150 | the eight memory-destination modes latch a destination |
| CpuFetch.NoDestLatched | emulator/cpu_fetch.cpp:16-155 | every other mode, and a null instruction, latches none |
| Cpu.Vector | emulator/cpu.cpp:226-269 | the handler address of source i is 0x40 + 8i |
| Cpu.Request | emulator/cpu.cpp:271-276 | RequestInterrupt changes only IF |
| Cpu.RequestedBits | emulator/cpu.cpp:226-269 | a source is requested iff its bit is set in both IF and IE |
| Cpu.HandleInterruptsPriority | emulator/cpu.cpp:226-269 | HandleInterrupts services the requested and enabled source that no such source precedes in the order VBlank, STAT, Timer, Serial, Joypad |
| Cpu.HandleInterruptsIdle | emulator/cpu.cpp:228-243 | with no source both requested and enabled, nothing changes: no push, PC and IF unchanged |
| Cpu.ServiceEffect | emulator/cpu.cpp:226-269 | with the stack in RAM, servicing pushes PC below SP, lowers SP by two, sets PC to the vector, clears halted and IME and the source's IF bit |
| Cpu.ServiceClearsOnlyItsBit | emulator/cpu.cpp:226-269 | of IF, a service clears the source's bit and keeps every other bit |
| Cpu.ServiceReturns | emulator/cpu.cpp:226-269 | the word a service pushes pops back as the interrupted PC, and SP returns |
| Cpu.RequestEffect | emulator/cpu.cpp:271-276 | RequestInterrupt sets the source's IF bit, keeps every other bit, and a second request changes nothing |
| Cpu.RequestThenService | emulator/cpu.cpp:226-276 | a requested and enabled source with nothing of higher priority pending is serviced by the next HandleInterrupts |
| Cpu.HaltedCycleEffect | emulator/cpu.cpp:101-109 | when its cycle does not fault, a halted step spends one machine cycle, fetches nothing, leaves every register and PC, and stays halted iff IF is 0 whatever IE holds |
| Cpu.TailQuiet | emulator/cpu.cpp:111-120 | without IME and without a pending enable the end of a step changes nothing |
| Cpu.TailWithoutIme | emulator/cpu.cpp:111-120 | with IME clear the end of a step services nothing and IME becomes the pending enable |
| Cpu.TailWithIme | emulator/cpu.cpp:111-120 | with IME set the end of a step services the highest-priority pending source and drops the pending enable |
| Cpu.TailWithImeIdle | emulator/cpu.cpp:111-120 | with IME set and nothing pending, the end of a step only drops the pending enable |
| Cpu.FetchDataLatches | emulator/cpu_fetch.cpp:14-155 | fetching the operand leaves IME, the pending enable and the halt flag |
| Cpu.DebugKeepsCpu | emulator/emu.cpp:149-177 | the serial debug sink and its print leave the CPU alone |
| Cpu.BeforeExecute | emulator/cpu.cpp:37-99 | up to the handler, an instruction step leaves IME, the pending enable and halted |
| Cpu.EnableDisableOpcodes | emulator/instructions.cpp:265-289 | 0xFB is EI and 0xF3 is DI |
| Cpu.RunInstructionSteps | emulator/cpu.cpp:37-99 | proof step: the instruction half of a step is fetch, operand, debug sink, then the handler on that machine |
| Cpu.ExecuteIsDispatch | emulator/cpu.cpp:125-171 | proof step: Execute runs the handler of the latched instruction's type |
| Cpu.ExecuteEnableDisable | emulator/cpu.cpp:151-152 | EI and DI spend one cycle and set the latches |
| Cpu.EnableDisableStep | emulator/cpu.cpp:35-123 | the machine the EI/DI handler starts from within a step, and its result |
| Cpu.EnableLatency | emulator/cpu.cpp:111-120 | a step executing EI with IME clear services nothing and ends with IME set, so the next instruction runs before any interrupt |
| Cpu.DisableAtOnce | emulator/cpu.cpp:111-120 | the step executing DI services nothing and ends with IME and the pending enable clear |
| Cpu.ServiceAfterInstruction | emulator/cpu.cpp:111-120 | a step with IME set whose instruction keeps IME services the highest-priority pending source after the instruction |
| Bus.DmaStart | emulator/bus.cpp:88-94 | a write to 0xFF46 starts a transfer: active, delay 2, page set, offset 0 |
| Bus.ReadByte | emulator/bus.cpp:15-45 | a read faults with NO_IMPL exactly at the addresses no route claims |
| Bus.WriteByte | emulator/bus.cpp:47-80 | a write faults with NO_IMPL exactly at the addresses no route claims |
| Bus.MappedAddresses | emulator/bus.cpp:15-80 | the routes claim 0x0000-0xDFFF and 0xFF00-0xFFFF; 0xE000-0xFEFF reaches NO_IMPL on read and write |
| Bus.RoutesDisjoint | emulator/bus.cpp:15-45 | the cartridge claims its addresses first; RAM and IO are reached only outside them |
| Bus.RamWriteFrame | emulator/bus.cpp:47-80 | a RAM write changes only the RAM record |
| Bus.ReadIgnoresRam | emulator/bus.cpp:15-45 | reads outside RAM do not look at RAM |
| Bus.RamWriteRead | emulator/bus.cpp:15-80 | write-then-read through the bus at a RAM address returns the value, every other address reads as before |
| Bus.RamReadWrite | lib/ram.cpp:6-64 | on the RAM record, a write reads back at its address and leaves every other address |
| Bus.WriteWordReadBack | emulator/bus.cpp:82-86 | WriteWord into WRAM stores the low byte at a and the high byte at a + 1 |
| Bus.DmaTickWaits | emulator/bus.cpp:96-103 | an idle DMA tick changes nothing; a waiting tick only lowers the delay |
| Bus.WaitPhase | emulator/bus.cpp:96-103 | the two waiting ticks after DMA_Start bring the delay to 0 and change nothing else |
| Bus.DmaTickCopies | emulator/bus.cpp:104-113 | a copy tick stores the bus byte at `page * 0x100 + offset` in OAM index offset, keeps the rest of OAM, advances the offset and ends after offset 159 |
| Bus.DmaTickAsWrittenFails | emulator/bus.cpp:110 | the copy as written passes the raw offset to WriteOAM_Byte, which indexes 0x200 past the slot and faults |
| Bus.DmaTickVersionsAgree | emulator/bus.cpp:96-114 | the as-written and corrected ticks agree on idle and waiting ticks |
| Bus.DmaTransfer | emulator/bus.cpp:88-114 | after DMA_Start(p), 162 ticks (2 waiting, 160 copying) fill OAM index k with the byte at `p * 0x100 + k`, end the transfer, and change nothing else |
| Dma.Start | emulator/bus.cpp:88-94 | a transfer from the page, active with delay 2 and offset 0 |
| Dma.SourceAddress | emulator/bus.cpp:104-110 | the next copy reads `page * 0x100 + offset` |
| Dma.Next | emulator/bus.cpp:96-114 | one tick keeps an active transfer's offset below 160 |
| Dma.After | emulator/bus.cpp:96-114 | n ticks keep an active transfer's offset below 160 |
| Dma.IdleStays | emulator/bus.cpp:98-99 | an inactive transfer stays as it is |
| Dma.CopyAdvances | emulator/bus.cpp:104-113 | a copy tick copies its offset and moves to the next; the last ends the transfer |
| Dma.CopyPhase | emulator/bus.cpp:104-113 | k further copy ticks leave the offset k higher and the transfer active |
| Dma.AfterSplit | emulator/bus.cpp:96-114 | m + n ticks are m ticks then n more |
| Dma.Timing | emulator/bus.cpp:88-114 | after DMA_Start, ticks 0-1 wait, tick 2 + k copies offset k, and the transfer is active after t ticks iff t < 162 |
| Ram.ReadExtRam | lib/ram.cpp:49-52 | the RAM class's ext-RAM stub reads 0 |
| Ram.WriteExtRam | lib/ram.cpp:44-47 | the RAM class's ext-RAM stub writes nothing |
| Ram.RegionsDisjoint | lib/ram.cpp:66-79 | WRAM, VRAM and HRAM predicates are pairwise disjoint |
| Ram.RegionBounds | lib/ram.cpp:66-79 | the predicates cover exactly 0xC000-0xDFFF, 0x8000-0x9FFF and 0xFF80-0xFFFE |
| Ram.WramIndexInBoundsExactly | lib/ram.cpp:6-30 | the WRAM translation stays inside the banks exactly for WRAM addresses |
| Ram.WramBanking | lib/ram.cpp:6-30 | offsets below 0x1000 go to bank 0, the rest to the selected bank at offset - 0x1000 |
| Ram.IndexesInBounds | lib/ram.cpp:8-63 | every index computed from an address satisfying its predicate is in bounds (WRAM < 0x1000, VRAM < 0x2000, HRAM < 0x7F) |
| Ram.WramWriteRead | lib/ram.cpp:6-30 | a WRAM write reads back and leaves every other WRAM address |
| Ram.VramWriteRead | lib/ram.cpp:32-42 | a VRAM write reads back and leaves every other VRAM address |
| Ram.HramWriteRead | lib/ram.cpp:54-64 | an HRAM write reads back and leaves every other HRAM address |
| Ram.WritesStayInRegion | lib/ram.cpp:6-64 | a write to one region changes nothing in the other two, nor the bank selectors |
| Ppu.OamIndexRange | emulator/ppu.cpp:5-20 | IsOAM_Addr holds iff the index `a - 0xFE00` is in [0, 160) |
| Ppu.ReadOam | emulator/ppu.cpp:5-10 | ReadOAM_Byte succeeds exactly for OAM addresses and returns the byte at `a - 0xFE00` |
| Ppu.WriteOam | emulator/ppu.cpp:12-16 | WriteOAM_Byte succeeds exactly for OAM addresses and changes only the byte at `a - 0xFE00` |
| Ppu.OamWriteRead | emulator/ppu.cpp:5-16 | WriteOAM_Byte then ReadOAM_Byte returns the value, other OAM bytes unchanged |
| Ppu.RawOffsetOutOfRange | emulator/ppu.cpp:14 | a raw offset below 160 indexes 0x200 past its slot, outside the array |
| Io.ReadOamGuarded | emulator/io.cpp:42-50 | an OAM read gives 0xFF while a transfer runs, else the OAM byte |
| Io.IoAddresses | emulator/io.cpp:105-108 | the timer and LCD registers the IO layer forwards to lie in IsIO_Addr's range, which does not meet OAM |
| Io.SerialRoundTrip | lib/io.cpp:12-20 | the serial registers read back what was written, in both versions, and nothing else changes |
| Io.InterruptRegisters | lib/io.cpp:47-55 | 0xFF0F reads and writes IF in both versions; 0xFFFF reads IE |
| Io.InterruptEnableWrite | lib/io.cpp:76-118 | lib/io.cpp drops a write to 0xFFFF, emulator/io.cpp stores it in IE |
| Io.TimerForwarded | lib/io.cpp:42-45 | 0xFF04-0xFF07 are forwarded to the timer on read and write in both versions |
| Io.DmaRegisterWrite | lib/io.cpp:102-106 | a write to 0xFF46 starts a transfer from that page in lib/io.cpp, and does nothing in emulator/io.cpp |
| Io.LcdReads | lib/io.cpp:22-40 | LCD registers are read through the LCD predicates first, so 0xFF44 reads 0x90 and the counter branch is unreachable |
| Io.OamDuringDma | emulator/io.cpp:42-50 | an OAM address reads 0xFF and drops writes while DMA runs, otherwise reaches the OAM byte |
| Io.UnmatchedAddresses | lib/io.cpp:73 | unmatched reads give 0 and unmatched writes change nothing |
| Io.VersionsAgree | emulator/io.cpp:10-103 | the two IO versions read alike everywhere and write alike except at 0xFF46 and 0xFFFF |
| Lcd.ReadByte | emulator/lcd.cpp:27-35 | 0xFF44 reads 0x90, every other address 0 |
| Lcd.PredicatesDisjoint | emulator/lcd.cpp:7-25 | the four LCD predicates are pairwise disjoint and 0xFF46 satisfies none |
| Lcd.LcdAddresses | emulator/lcd.cpp:7-25 | the predicates together hold for 0xFF40-0xFF45 and 0xFF47-0xFF4B only |
| Timer.GetClockFrequency | emulator/timer.cpp:90-93 | `tac & 3`, below 4 |
| Timer.Period | emulator/timer.cpp:95-105 | the tick count loaded for each of the four frequency selections is positive |
| Timer.UpdateClockFrequency | emulator/timer.cpp:95-105 | the counter reloads with the period of `tac & 3`, one of {1024, 16, 64, 256} |
| Timer.ReadByte | emulator/timer.cpp:69-83 | a timer read succeeds exactly at 0xFF04-0xFF07; any other address is the exit(-7) fault |
| Timer.WriteByte | emulator/timer.cpp:41-67 | a timer write succeeds exactly at 0xFF04-0xFF07; any other address is the exit(-7) fault |
| Timer.DividerRule | emulator/timer.cpp:14-19 | every tick adds to divCounter; once it reaches 255 it restarts at 0 and DIV increments |
| Timer.DisabledTimerHolds | emulator/timer.cpp:21 | with TAC bit 2 clear, a tick changes neither the counter nor TIMA and requests nothing |
| Timer.EnabledTimerCounts | emulator/timer.cpp:21-38 | with TAC bit 2 set, the counter drops by n; at <= 0 it reloads from the period and TIMA increments, or on 0xFF reloads from TMA with a Timer request |
| Timer.InterruptOnOverflow | emulator/timer.cpp:21-38 | only an expiring counter with TIMA at 0xFF requests the interrupt, and TIMA then holds TMA |
| Timer.WriteThenRead | emulator/timer.cpp:41-83 | DIV reads its high byte; TIMA, TMA, TAC read back as written; writing 0xFF04 clears DIV |
| Timer.TacWriteReload | emulator/timer.cpp:48-60 | writing TAC reloads the counter exactly when `TAC & 3` changes |
| Timer.BadAddressIsFatal | emulator/timer.cpp:61-88 | addresses outside 0xFF04-0xFF07 reach exit(-7) on read and write |
| Timer.TimaAdvancesOncePerPeriod | emulator/timer.cpp:21-38 | an enabled timer with `counter` ticks left steps TIMA exactly at the last of them, not before |
| Timer.CountsDown | emulator/timer.cpp:21-38 | while the counter stays positive, k ticks lower it by k and leave TIMA and IF |
| Timer.RunSplit | emulator/timer.cpp:12-39 | m + n ticks are m ticks and then n more |
| Timer.InitialRegisters | emulator/timer.cpp:7-10 | right after construction DIV reads 0xAB and TIMA, TMA, TAC read 0 |
| Cart.GetCgbFlag | emulator/cart.cpp:41-56 | title[15] = 0x80 is CGB compatible, 0xC0 CGB only, anything else none |
| Cart.GetExtRamBankCount | emulator/cart.cpp:83-95 | the bank count is one of 0, 1, 4, 8, 16, and nonzero exactly for the RAM-size codes 2-5 |
| Cart.RomBankCount | emulator/cart.cpp:97-112 | the intended bank count: `2 << romSize` for codes 0-8, else 2 |
| Cart.GetRomTotalSize | emulator/cart.cpp:114-117 | defined without int overflow exactly for size codes up to 15, and then 32 KiB times 2^romSize |
| Cart.ReadByte | emulator/cart.cpp:167-182 | ext-RAM reads succeed iff there is a bank; other reads succeed iff the address is inside the ROM image and return its byte |
| Cart.WriteByte | emulator/cart.cpp:184-224 | a write succeeds iff it targets ext-RAM and there is a bank, and it never changes the ROM or the bank selector |
| Cart.ValidateChecksum | emulator/cart.cpp:157-165 | the loop over 0x134..0x14C computes the fold and accepts iff its low byte is nonzero |
| Cart.HeaderFoldClosedForm | emulator/cart.cpp:157-165 | the fold's low byte is minus the byte sum minus 25, whatever the signedness of char |
| Cart.ZeroHeaderSum | emulator/cart.cpp:157-165 | an all-zero header has byte sum 0, its fold's low byte is minus the number of bytes folded, and 0xE7 over all 25 |
| Cart.ValidateChecksumIgnoresStoredByte | emulator/cart.cpp:157-165 | the verdict does not depend on the stored checksum byte 0x14D, and with that byte 0 it is the opposite of the intended check |
| Cart.ZeroHeaderAccepted | emulator/cart.cpp:157-165 | a zero header with stored checksum 0 is accepted although its correct checksum is 0xE7 |
| Cart.ChecksumMatchesClosedForm | emulator/cart.cpp:157-165 | the intended check accepts exactly when the stored byte is minus the sum minus 25 |
| Cart.AddressRangesDisjoint | emulator/cart.cpp:226-234 | IsROM_Addr and IsEXT_RAM_Addr are disjoint |
| Cart.ExtRamWriteRead | emulator/cart.cpp:167-224 | with at least one ext-RAM bank, a write reads back at its address and only there |
| Cart.NoBanksIsFatal | emulator/cart.cpp:167-224 | with no ext-RAM banks, ext-RAM read and write stop at the debug break |
| Cart.RomWriteIsFatal | emulator/cart.cpp:184-224 | a write to the ROM range is NO_IMPL |
| Cart.RomBankCountTruncated | emulator/cart.cpp:108-109 | size codes 7 and 8 lose their bank count to the u8 return type; other codes agree with the intended count |
| Cart.RomBanksFillTotalSize | emulator/cart.cpp:97-117 | the intended bank count times 16 KiB is the total ROM size for every defined code |
| EmuState.InitialMemory | emulator/emu.cpp:28-39 | after construction IF and IE are 0, no DMA runs, the cartridge is the loaded one |
| EmuState.Initial | emulator/emu.cpp:28-39 | the constructed machine: the CPU's initial state, the initial memory, cycles 0, an empty debug buffer |
| Emu.DebugPrint | emulator/emu.cpp:170-177 | a finished message clears the flag; nothing else changes |
| Emu.ClockIsWrap | emulator/emu.cpp:102-108 | n machine cycles add 4n to `cycles` modulo 2^32 |
| Emu.ClockCompose | emulator/emu.cpp:102-108 | a cycles then b more move the counter as a + b do |
| Emu.FourTicks | emulator/emu.cpp:102-108 | four clock ticks run the timer four ticks, request its interrupt if it overflowed, and change nothing else |
| Emu.DmaTickEffect | emulator/bus.cpp:96-114 | a DMA tick with the copy corrected (Bus.DmaTick) moves the DMA registers by Dma.Next and changes only them and OAM |
| Emu.MachineCycleEffect | emulator/emu.cpp:102-112 | one machine cycle is four clock ticks then one DMA tick, the tick with its OAM copy corrected (see Left out) |
| Emu.CyclesEffect | emulator/emu.cpp:102-112 | n machine cycles without a fault run the timer 4n ticks and DMA_Tick n times |
| Emu.IdleMachineCycle | emulator/emu.cpp:102-112 | without DMA a machine cycle cannot fail and starts none |
| Emu.IdleCycles | emulator/emu.cpp:102-112 | without DMA, n machine cycles neither fault nor start a transfer |
| Emu.QuietCycles | emulator/emu.cpp:102-112 | without DMA and with the timer disabled, cycles change nothing but DIV |
| Emu.QuietCyclesOk | emulator/emu.cpp:102-112 | without DMA, cycles do not fault |
| Emu.CycleEffect | emulator/emu.cpp:95-113 | Cycle(0) changes nothing; otherwise `cycles` rises by 4n mod 2^32, the memory is as the n-cycle spec says, and the CPU is untouched |
| Emu.TimerStaysDisabled | emulator/timer.cpp:21 | a disabled timer stays disabled and requests nothing over any number of cycles |
| Emu.SerialReads | lib/io.cpp:12-20 | 0xFF01 and 0xFF02 read the serial bytes through the bus |
| Emu.DebugIdle | emulator/emu.cpp:151-152 | unless 0xFF02 reads 0x81, DebugUpdate changes nothing |
| Emu.DebugAppends | emulator/emu.cpp:151-166 | with 0x81 in 0xFF02 and room left, the 0xFF01 byte is stored at the current size, 0xFF02 becomes 0, and the size grows unless the closing newline completes the message |
| Emu.DebugOverflow | emulator/emu.cpp:158 | a full buffer with a pending byte is the out-of-bounds write |
| Console.GameBoy.constructor | emulator/emu.cpp:28-39 | the object holds the initial machine with the loaded cartridge |
| Console.GameBoy.ReadCartridge | emulator/cart.cpp:167-182 | the selected ext-RAM bank (a fault with no banks), else the ROM byte, as Cart.ReadByte |
| Console.GameBoy.ReadIo | lib/io.cpp:10-74 | the IO read of Io.ReadByte on the object's state |
| Console.GameBoy.ReadByte | emulator/bus.cpp:15-45 | the bus read of Bus.ReadByte: cartridge, WRAM, VRAM, HRAM, IO in that order, NO_IMPL otherwise |
| Console.GameBoy.WriteCartridge | emulator/cart.cpp:184-224 | the ext-RAM store of Cart.WriteByte in place; a ROM write faults |
| Console.GameBoy.UpdateClockFrequency | emulator/timer.cpp:95-105 | the counter takes the period of `tac & 3` |
| Console.GameBoy.WriteTimer | emulator/timer.cpp:41-67 | the timer write of Timer.WriteByte in place |
| Console.GameBoy.DmaStart | emulator/bus.cpp:88-94 | the DMA fields become Dma.Start(page), nothing else changes |
| Console.GameBoy.WriteIo | lib/io.cpp:76-118 | the IO write of Io.WriteByte in place |
| Console.GameBoy.WriteByte | emulator/bus.cpp:47-80 | the bus write of Bus.WriteByte in place, with the same faults |
| Console.GameBoy.WriteWord | emulator/bus.cpp:82-86 | the low byte at a, then the high byte at a + 1, as Bus.WriteWord |
| Console.GameBoy.RequestInterrupt | emulator/cpu.cpp:271-276 | IF becomes IF with the source's bit set, nothing else changes |
| Console.GameBoy.TimerTick | emulator/timer.cpp:12-39 | the timer fields and IF become those Timer.Tick gives |
| Console.GameBoy.TickDivider | emulator/timer.cpp:14-19 | the divider part of Tick in place |
| Console.GameBoy.StepTima | emulator/timer.cpp:28-36 | TIMA counts up by one; from 0xFF it takes TMA and the Timer bit of IF is set; nothing else changes |
| Console.GameBoy.TickCounter | emulator/timer.cpp:21-38 | the counter part of Tick in place, with the Timer request on overflow |
| Console.GameBoy.DmaTick | emulator/bus.cpp:96-114 | the DMA fields and OAM become those of Bus.DmaTick, the tick with its OAM copy corrected, with its fault when the copy's bus read faults |
| Console.GameBoy.StoreDmaByte | emulator/bus.cpp:110-113 | with the copy corrected, the copied byte lands at OAM index `dmaCurrentByte`, which advances, and the transfer stays active while it is below 160 |
| Console.GameBoy.Cycle | emulator/emu.cpp:95-113 | the loop of `amount` machine cycles leaves the object as Emu.Cycle gives, stopping at a fault |
| Console.GameBoy.ClockTick | emulator/emu.cpp:105-109 | `cycles++` mod 2^32 and one timer tick |
| Console.GameBoy.MachineCycle | emulator/emu.cpp:102-112 | four clock ticks then the corrected DMA tick, as Emu.MachineCycle |
| Console.GameBoy.DebugUpdate | emulator/emu.cpp:149-168 | the debug buffer, its size and message flag, and 0xFF02 as Emu.DebugUpdate gives |
| Console.GameBoy.StartMessage | emulator/emu.cpp:152-156 | a new message over old text clears the buffer, as Emu.StartMessage |
| Console.GameBoy.DebugReceive | emulator/emu.cpp:157-166 | the byte stored, 0xFF02 reset, the message completed on the closing newline, as Emu.DebugReceive |
| Console.GameBoy.StoreDebugByte | emulator/emu.cpp:157-158 | the received byte is stored at the current size, which grows by one |
| Console.GameBoy.CloseDebugLine | emulator/emu.cpp:160-166 | a newline after a newline, or closing a message that began with one, completes the message and empties the buffer's size; otherwise nothing changes |
| Console.GameBoy.ClearDebugBuffer | emulator/emu.cpp:154 | every byte of the buffer becomes 0 |
| Console.GameBoy.DebugPrint | emulator/emu.cpp:170-177 | the message flag clears, as Emu.DebugPrint |
| Console.GameBoy.PushByte | emulator/cpu_proc.cpp:8-13 | SP lowered by one, then the byte written there, as CpuMemory.PushByte |
| Console.GameBoy.PushWord | emulator/cpu_proc.cpp:15-24 | the high byte then the low byte pushed, as CpuMemory.PushWord |
| Console.GameBoy.ExecuteInterrupt | emulator/cpu.cpp:228-247 | `taken` iff the source is requested and enabled; if taken the object is serviced as Cpu.Service, otherwise unchanged |
| Console.GameBoy.Service | emulator/cpu.cpp:230-240 | PC pushed and set to the vector, the IF bit cleared, halted and IME cleared, as Cpu.Service |
| Console.GameBoy.EnterHandler | emulator/cpu.cpp:232-236 | PC becomes the source's vector, its IF bit is cleared, `halted` and IME are cleared, nothing else changes |
| Console.GameBoy.HandleInterrupts | emulator/cpu.cpp:226-269 | the five sources tried in priority order, the first taken ends it, as Cpu.HandleInterrupts |
| Console.GameBoy.Step | emulator/cpu.cpp:35-123 | the instruction half or a halted cycle, then the interrupt tail, as Cpu.Step |
| Console.GameBoy.HaltedCycle | emulator/cpu.cpp:101-109 | one machine cycle, then any bit of IF ends the halt, as Cpu.HaltedCycle |
| Console.GameBoy.InterruptTail | emulator/cpu.cpp:111-120 | interrupts under IME, then a pending EI becomes IME, as Cpu.InterruptTail |
| Console.GameBoy.SetLatches | emulator/cpu.cpp:111-120 | IME and the pending enable take the given values, nothing else changes |
| Console.GameBoy.RunInstruction | emulator/cpu.cpp:37-99 | fetch, operand, debug sink and handler, as Cpu.RunInstruction |

## Left out

- `PPU::Tick`, the PPU mode and line state machine and `GetCurrentFrame`
  are implemented in no file of the core. A machine cycle therefore ticks
  the timer and DMA only. OAM is the only PPU state in the model.
- `EMU::Run`, `EMU::ExecuteCPU`, the CPU thread, the window loop, the
  `GetEMU` singleton, `Delay`/`Sleep` and gbemu/main.cpp are process setup,
  threads and timing. They are replaced by explicit state.
- The SDL window, the joypad (its address predicate is hard-wired false)
  and include/lcd.h's bitfield structs are a foreign library and
  presentation.
- `Cartridge::Load` reads the file. The model takes the loaded ROM image as
  a parameter, and `Init_ExtRam` is folded into the cartridge record.
  `PrintHeaderInfo`, the licensee and type name maps and `ROM_Header`'s
  string lookups are text only.
- `printf`, GB_DOCTOR and DEBUG_PRINT tracing, `GetInstructionDebugString`,
  `Instruction::PrintInfo` and the name tables are diagnostic output.
- `stackDebug`/`stackCounter` bookkeeping is left out. It is not only
  diagnostic: `Stack_PopWord` (emulator/cpu_proc.cpp:40) erases the last
  element of `stackDebug`, which is undefined behaviour when more words are
  popped than `Stack_PushWord` pushed since start-up. The model pops
  cleanly in that case; the lines below name the members this affects.
- CpuMemory.PopWordEffect: does not capture the undefined behaviour of a
  word pop deeper than the pushes since start-up; it reads the stack bytes.
- CpuMemory.PopWordFromRam: the same; a pop deeper than the pushes reads RAM.
- CpuMemory.PushPopRoundTrip: is stated for a pop right after its push,
  which never pops deeper than the pushes; the stack history is not modelled.
- CpuProc.PopEffect: POP rr pops cleanly even when deeper than the pushes
  since start-up, where the source's erase is undefined behaviour.
- CpuProc.ReturnTaken: RET/RETI pop cleanly even when deeper than the
  pushes since start-up, where the source's erase is undefined behaviour.
- CpuProc.PushPopRoundTrip: the stack history is not modelled; a pop
  right after a push is never deeper than the pushes.
- Cpu.ServiceReturns: the same as CpuProc.PushPopRoundTrip, for the word
  an interrupt service pushes.
- `EMU::DebugPrint`'s console output is I/O. The model keeps only the
  clearing of `msgUpdated`.
- `CPU::GetFunction` builds a table of member-function pointers that
  `Execute` never uses. Dispatch is one exhaustive match (`CpuProc.Dispatch`).
- lib/bus.cpp is an older bus that nothing in the core calls.
  lib/cpu_fetch.cpp is the same fetch logic as emulator/cpu_fetch.cpp under
  old enum names and is modelled once.
- IF and IE live in the memory record, not in the CPU record, because the
  bus reaches them at 0xFF0F and 0xFFFF. The CPU's accessors read that
  record.
- Console.GameBoy.RunInstruction: the instruction half of a step (fetch,
  operand, debug sink, handler) is computed on the value layer and stored
  back with `Load`. The object layer does not execute instruction
  handlers in place. Its in-place methods cover the bus, the timer, DMA,
  the clock, the debug sink, the stack and interrupts.
- Console.GameBoy.ReadIo and Console.GameBoy.WriteIo follow lib/io.cpp, the
  variant the bus uses. emulator/io.cpp exists only on the value layer
  (`Io.VersionsAgree`).
- Cart.Cart requires an image of at least 0x150 bytes. The source sizes
  its buffer to the loaded file and reads the header at 0x100 without a
  size check (emulator/cart.cpp:133,140), so a shorter file is undefined
  behaviour there and has no model.
- Cart.GetRomTotalSize is stated in `int` arithmetic for size codes up to
  15. From 16 on the C++ shift overflows `int`, which is undefined
  behaviour and is not modelled.
- STOP is a no-op handler and HALT only sets `halted`. They have no lemma
  of their own. The halted step is covered by `Cpu.HaltedCycleEffect`.
- The CB handler on the (HL) operand is modelled (`CpuProc.Cb`: the bus
  read, the write-back and its extra cycle) but has no whole-handler
  lemma. The whole-handler lemmas cover the register operands
  (`CpuProc.CbRegister`, `CpuProc.CbBitRegister`).
- Emu.MachineCycle: runs the corrected DMA tick (`Bus.DmaTick`, OAM index
  `offset`). As written (emulator/bus.cpp:110 with emulator/ppu.cpp:14)
  every DMA copy tick is the out-of-range fault of
  `Bus.DmaTickAsWrittenFails`, so a machine cycle during a copy faults.
- Emu.MachineCycleEffect: states the machine cycle with
  the corrected DMA tick, not the as-written fault of every copy tick.
- Console.GameBoy.MachineCycle: runs the corrected DMA tick, as
  Emu.MachineCycle.
- Console.GameBoy.DmaTick: runs the corrected copy. As written every copy
  tick faults out of range (`Bus.DmaTickAsWrittenFails`).
- Console.GameBoy.StoreDmaByte: stores at OAM index `dmaCurrentByte`, the
  intended copy. As written the store is out of range.
- CpuProc.PushEffect is proved only with no OAM DMA transfer running.
  While one runs, each cycle may copy a byte into OAM or fault on its bus
  read, and the stack write between the cycles changes what a later copy
  reads, so cycle success is not one condition on the starting state.
- CpuProc.PopEffect is proved only with no OAM DMA transfer running, for
  the same reason: its cycles come before and after the stack reads.
- CpuProc.PushPopRoundTrip is proved only with no OAM DMA transfer
  running, as it rests on PushEffect and PopEffect.
- CpuProc.CallReturnRoundTrip is proved only with no OAM DMA transfer
  running, as it rests on CallTaken and ReturnTaken.
- CpuProc.CallTaken is proved only with no OAM DMA transfer running: the
  push of PC sits between its cycles.
- CpuProc.ReturnTaken is proved only with no OAM DMA transfer running: the
  pop of PC sits between its cycles.
- The remaining LD forms have no whole-handler lemma. These are LD HL,SP+e,
  the word store LD (a16),SP, and LDH. They are modelled in `CpuProc.Load`
  and `CpuProc.LoadHigh`.

## Findings

| source | as written | input that shows it | evidently intended | confidence | as-written member | corrected member |
|---|---|---|---|---|---|---|
| emulator/cpu_registers.cpp:111-124 | `SetFlag(u8 value, …)` tests `value != -1`, which always holds for a u8, so -1 ("leave the flag") sets the flag | SetFlags(-1, -1, -1, -1) with F = 0 gives F = 0xF0 | -1 leaves the flag, as the CPU's own register file does | not executed | CpuRegisters.SetFlagsKeepCounterexample | Registers.SetFlagsTriState |
| emulator/bus.cpp:110 | DMA_Tick passes the raw offset (0..159) to `WriteOAM_Byte`, which subtracts 0xFE00, so the index is offset + 0x200, outside the 160-byte OAM array | any copy tick, e.g. offset 0 | write to OAM index `offset` (address 0xFE00 + offset) | not executed | Bus.DmaTickAsWrittenFails | Bus.DmaTickCopies |
| emulator/cart.cpp:108-109 | GetRomBankCount returns u8, so the counts 256 and 512 for size codes 7 and 8 truncate to 0 | romSize = 7 | 256 and 512 banks, matching GetRomTotalSize | not executed | Cart.RomBankCountTruncated | Cart.RomBanksFillTotalSize |
| emulator/cart.cpp:157-165 | ValidateChecksum accepts iff the fold's low byte is nonzero and never reads the stored checksum at 0x14D | an all-zero header with stored checksum 0 is accepted, while its correct checksum is 0xE7 | accept iff the fold's low byte equals byte 0x14D | not executed | Cart.ZeroHeaderAccepted | Cart.ChecksumMatchesClosedForm |
