/**
 * CPU::Step and the interrupt service of class CPU (cpu.cpp). A step either
 * runs one instruction (fetch, operand, the serial debug sink, execute) or,
 * while halted, spends one machine cycle and wakes on any requested
 * interrupt. Then, under the master enable (IME), the requested and enabled
 * source of highest priority is serviced, and a pending enable left by EI
 * or RETI becomes IME at the very end of the step.
 */
module Cpu {
  import opened Bits
  import opened Types
  import opened Registers
  import opened Instructions
  import opened CpuState
  import opened EmuState
  import opened CpuMemory
  import Bus
  import Emu
  import CpuFetch
  import CpuProc
  import Ram

  /** The handler address of each interrupt source, as HandleInterrupts passes it to executeInterrupt. */
  function Vector(t: IntType): (r: u16)
    ensures r == 0x40 + 8 * IntIndex(t)
  {
    match t
    case VBlank => 0x40
    case LcdStat => 0x48
    case Timer => 0x50
    case Serial => 0x58
    case Joypad => 0x60
  }

  /** `IsInterruptSet(type) && IsInterruptEnabled(type)`: the source is requested in IF and enabled in IE. */
  predicate Requested(m: Memory, t: IntType)
  {
    IsInterruptSet(m.intFlags, t) && IsInterruptSet(m.ieFlags, t)
  }

  /**
   * The taken branch of executeInterrupt: PC pushed, PC set to the vector,
   * the source's IF bit cleared (in IF as the push left it), and both
   * `halted` and IME cleared. No machine cycle is spent.
   */
  function Service(s: Machine, t: IntType): Result<Machine>
  {
    var s1 :- PushWord(s, s.cpu.regs.pc);
    Ok(s1.(cpu := s1.cpu.(regs := s1.cpu.regs.(pc := Vector(t)), halted := false, interruptsEnabled := false),
           mem := s1.mem.(intFlags := AcknowledgeInterrupt(s1.mem.intFlags, t))))
  }

  /** HandleInterrupts: VBlank, STAT, Timer, Serial and Joypad are tried in that order, and the first that is requested and enabled is serviced. */
  function HandleInterrupts(s: Machine): Result<Machine>
  {
    if Requested(s.mem, VBlank) then Service(s, VBlank)
    else if Requested(s.mem, LcdStat) then Service(s, LcdStat)
    else if Requested(s.mem, Timer) then Service(s, Timer)
    else if Requested(s.mem, Serial) then Service(s, Serial)
    else if Requested(s.mem, Joypad) then Service(s, Joypad)
    else Ok(s)
  }

  /** RequestInterrupt: the source's bit ORed into IF. */
  function Request(m: Mem, t: IntType): (r: Mem)
    ensures r == m.(intFlags := r.intFlags)
  {
    m.(intFlags := RequestInterrupt(m.intFlags, t))
  }

  /** The instruction half of a step: the opcode and its operand, the serial debug sink, then the handler. */
  function RunInstruction(s: Machine): Result<Machine>
  {
    var s1 :- CpuFetch.FetchInstruction(s);
    var s2 :- CpuFetch.FetchData(s1);
    var s3 :- Emu.DebugUpdate(s2);
    CpuProc.Execute(Emu.DebugPrint(s3))
  }

  /** The halted half of a step: one machine cycle, after which any bit of IF, enabled or not, ends the halt. */
  function HaltedCycle(s: Machine): Result<Machine>
  {
    var s1 :- Emu.Cycle(s, 1);
    Ok(if s1.mem.intFlags != 0 then s1.(cpu := s1.cpu.(halted := false)) else s1)
  }

  /**
   * The end of a step: under IME the interrupts are handled and a pending
   * enable is dropped; then a pending enable that is still there becomes
   * IME.
   */
  function InterruptTail(s: Machine): Result<Machine>
  {
    var s1 :- if s.cpu.interruptsEnabled then
        var h :- HandleInterrupts(s);
        Ok(h.(cpu := h.cpu.(enableInterrupts := false)))
      else Ok(s);
    Ok(if s1.cpu.enableInterrupts then s1.(cpu := s1.cpu.(interruptsEnabled := true)) else s1)
  }

  /** CPU::Step. The source always returns true; a fault of the model is the only other outcome. */
  function Step(s: Machine): Result<Machine>
  {
    var s1 :- if !s.cpu.halted then RunInstruction(s) else HaltedCycle(s);
    InterruptTail(s1)
  }

  // ---------------------------------------------------------------------
  // Priority
  // ---------------------------------------------------------------------

  /** Requested tests the source's own bit in both IF and IE. */
  lemma RequestedBits(m: Memory, t: IntType)
    ensures Requested(m, t) <==> Bit(m.intFlags, IntIndex(t)) == 1 && Bit(m.ieFlags, IntIndex(t)) == 1
  {
    InterruptTests(m.intFlags, t);
    InterruptTests(m.ieFlags, t);
  }

  /**
   * HandleInterrupts services the requested and enabled source that no
   * other requested and enabled source precedes in priority.
   */
  lemma HandleInterruptsPriority(s: Machine, t: IntType)
    requires Requested(s.mem, t)
    requires forall u :: IntIndex(u) < IntIndex(t) ==> !Requested(s.mem, u)
    ensures HandleInterrupts(s) == Service(s, t)
  {
    assert IntIndex(VBlank) == 0 && IntIndex(LcdStat) == 1 && IntIndex(Timer) == 2 && IntIndex(Serial) == 3;
  }

  /** With no source both requested and enabled, HandleInterrupts changes nothing: no push, PC and IF as they were. */
  lemma HandleInterruptsIdle(s: Machine)
    requires forall t :: !Requested(s.mem, t)
    ensures HandleInterrupts(s) == Ok(s)
  {
    assert !Requested(s.mem, VBlank) && !Requested(s.mem, LcdStat) && !Requested(s.mem, Timer);
    assert !Requested(s.mem, Serial) && !Requested(s.mem, Joypad);
  }

  /**
   * Servicing with the stack in RAM: the return address pushed below SP, SP
   * two lower, PC at the vector, `halted` and IME cleared, the source's IF
   * bit cleared; no cycle spent.
   */
  lemma ServiceEffect(s: Machine, t: IntType)
    requires StackInRam(s.cpu.regs.sp)
    ensures Service(s, t).Ok?
    ensures var r := Service(s, t).value; var rf := s.cpu.regs;
      && r.cpu == s.cpu.(regs := rf.(sp := Offset16(rf.sp, -2), pc := Vector(t)), halted := false, interruptsEnabled := false)
      && r.mem == s.mem.(ram := CpuProc.PushedRam(s.mem.ram, rf.sp, rf.pc), intFlags := AcknowledgeInterrupt(s.mem.intFlags, t))
      && r.cycles == s.cycles && r.debug == s.debug
  {
    PushWordToRam(s, s.cpu.regs.pc);
  }

  /** Of IF, a service clears the source's bit and keeps every other bit. */
  lemma ServiceClearsOnlyItsBit(s: Machine, t: IntType, j: nat)
    requires StackInRam(s.cpu.regs.sp) && j < 8
    ensures Service(s, t).Ok?
    ensures Bit(Service(s, t).value.mem.intFlags, j) == if j == IntIndex(t) then 0 else Bit(s.mem.intFlags, j)
  {
    ServiceEffect(s, t);
    AcknowledgeInterruptEffect(s.mem.intFlags, t, j);
  }

  /** The word a service pushes pops back as the interrupted PC, and SP returns to where it was. */
  lemma ServiceReturns(s: Machine, t: IntType)
    requires StackInRam(s.cpu.regs.sp)
    ensures Service(s, t).Ok? && PopWord(Service(s, t).value).Ok?
    ensures var (r, w) := PopWord(Service(s, t).value).value;
      w == s.cpu.regs.pc && r.cpu.regs.sp == s.cpu.regs.sp
  {
    var rf := s.cpu.regs;
    ServiceEffect(s, t);
    var r := Service(s, t).value;
    var a2 := Offset16(rf.sp, -2);
    OffsetCompose(rf.sp, -2, 1, -1);
    OffsetCompose(rf.sp, -2, 2, 0);
    assert r.cpu.regs.sp == a2 && Offset16(a2, 1) == Offset16(rf.sp, -1) && Offset16(a2, 2) == rf.sp;
    PopWordFromRam(r);
    CpuProc.PushedRamReads(s.mem.ram, rf.sp, rf.pc);
  }

  /** RequestInterrupt sets the source's IF bit, keeps every other bit, and a second request changes nothing. */
  lemma RequestEffect(m: Mem, t: IntType, j: nat)
    requires j < 8
    ensures var r := Request(m, t);
      && Bit(r.intFlags, j) == (if j == IntIndex(t) then 1 else Bit(m.intFlags, j))
      && Request(r, t) == r
  {
    RequestInterruptEffect(m.intFlags, t, j);
  }

  /** A requested source is serviced by the next HandleInterrupts if it is enabled and nothing of higher priority is pending. */
  lemma RequestThenService(s: Machine, t: IntType)
    requires IsInterruptSet(s.mem.ieFlags, t)
    requires forall u :: IntIndex(u) < IntIndex(t) ==> !Requested(s.mem, u)
    ensures var r := s.(mem := Request(s.mem, t)); HandleInterrupts(r) == Service(r, t)
  {
    var r := s.(mem := Request(s.mem, t));
    RequestInterruptEffect(s.mem.intFlags, t, IntIndex(t));
    InterruptTests(r.mem.intFlags, t);
    forall u | IntIndex(u) < IntIndex(t)
      ensures !Requested(r.mem, u)
    {
      RequestInterruptEffect(s.mem.intFlags, t, IntIndex(u));
      RequestedBits(r.mem, u);
      RequestedBits(s.mem, u);
    }
    HandleInterruptsPriority(r, t);
  }

  // ---------------------------------------------------------------------
  // The step
  // ---------------------------------------------------------------------

  /**
   * A halted step spends one machine cycle and fetches nothing: the
   * registers, PC included, stay, and the CPU stays halted exactly when IF
   * (after the cycle) is zero, whatever IE holds.
   */
  lemma HaltedCycleEffect(s: Machine)
    requires s.cpu.halted && Emu.Cycle(s, 1).Ok?
    ensures HaltedCycle(s).Ok?
    ensures var r := HaltedCycle(s).value;
      && r.cpu == s.cpu.(halted := r.mem.intFlags == 0)
      && CpuFetch.Spent(s, r, 1)
  {
    CpuProc.Cycled(s, 1);
  }

  /** Without IME and without a pending enable the end of a step changes nothing. */
  lemma TailQuiet(s: Machine)
    requires !s.cpu.interruptsEnabled && !s.cpu.enableInterrupts
    ensures InterruptTail(s) == Ok(s)
  {
  }

  /**
   * With IME clear the end of a step services nothing: memory, IF and PC
   * stay, and IME becomes the pending enable.
   */
  lemma TailWithoutIme(s: Machine)
    requires !s.cpu.interruptsEnabled
    ensures InterruptTail(s) == Ok(s.(cpu := s.cpu.(interruptsEnabled := s.cpu.enableInterrupts)))
  {
  }

  /**
   * With IME set the end of a step services the requested and enabled
   * source of highest priority and drops the pending enable, so IME is
   * clear after it; with none pending it only drops the pending enable.
   */
  lemma TailWithIme(s: Machine, t: IntType)
    requires s.cpu.interruptsEnabled && StackInRam(s.cpu.regs.sp)
    requires Requested(s.mem, t)
    requires forall u :: IntIndex(u) < IntIndex(t) ==> !Requested(s.mem, u)
    ensures InterruptTail(s).Ok?
    ensures var r := InterruptTail(s).value; var rf := s.cpu.regs;
      && r.cpu == s.cpu.(regs := rf.(sp := Offset16(rf.sp, -2), pc := Vector(t)), halted := false,
                         interruptsEnabled := false, enableInterrupts := false)
      && r.mem == s.mem.(ram := CpuProc.PushedRam(s.mem.ram, rf.sp, rf.pc), intFlags := AcknowledgeInterrupt(s.mem.intFlags, t))
  {
    HandleInterruptsPriority(s, t);
    ServiceEffect(s, t);
  }

  /** With IME set and nothing pending, the end of a step only drops the pending enable and keeps IME. */
  lemma TailWithImeIdle(s: Machine)
    requires s.cpu.interruptsEnabled
    requires forall t :: !Requested(s.mem, t)
    ensures InterruptTail(s) == Ok(s.(cpu := s.cpu.(enableInterrupts := false)))
  {
    HandleInterruptsIdle(s);
  }

  /** IME, the pending enable and the halt flag. */
  function Latches(c: CpuState): (bool, bool, bool)
  {
    (c.interruptsEnabled, c.enableInterrupts, c.halted)
  }

  /** Fetching the operand leaves IME, the pending enable and the halt flag. */
  lemma FetchDataLatches(s: Machine)
    requires CpuFetch.FetchData(s).Ok?
    ensures Latches(CpuFetch.FetchData(s).value.cpu) == Latches(s.cpu)
    ensures CpuFetch.FetchData(s).value.cpu.instruction == s.cpu.instruction
  {
    if s.cpu.instruction.Some? && s.cpu.instruction.value.mode in RegisterModes {
      FetchRegisterLatches(s);
    } else {
      FetchMemoryLatches(s);
    }
  }

  /** The addressing modes whose operand comes from a register, from (HL) or from the byte stream. */
  const RegisterModes: set<AddrMode> := {IMP, R_R, R, R_HLI, R_HLD, HLI_R, HLD_R, D8, R_D8, R_A8, HL_SPD, R_D16, D16}

  /** FetchDataLatches for the modes in RegisterModes. */
  lemma FetchRegisterLatches(s: Machine)
    requires s.cpu.instruction.Some? && s.cpu.instruction.value.mode in RegisterModes
    requires CpuFetch.FetchData(s).Ok?
    ensures Latches(CpuFetch.FetchData(s).value.cpu) == Latches(s.cpu)
    ensures CpuFetch.FetchData(s).value.cpu.instruction == s.cpu.instruction
  {
    if s.cpu.instruction.value.mode in {IMP, R_R, R, R_HLI, R_HLD, HLI_R, HLD_R} {
      FetchPlainLatches(s);
    } else {
      FetchImmediateLatches(s);
    }
  }

  /** FetchRegisterLatches for the modes that read no immediate. */
  lemma FetchPlainLatches(s: Machine)
    requires s.cpu.instruction.Some? && s.cpu.instruction.value.mode in {IMP, R_R, R, R_HLI, R_HLD, HLI_R, HLD_R}
    requires CpuFetch.FetchData(s).Ok?
    ensures Latches(CpuFetch.FetchData(s).value.cpu) == Latches(s.cpu)
    ensures CpuFetch.FetchData(s).value.cpu.instruction == s.cpu.instruction
  {
    var m := s.cpu.instruction.value.mode;
    if m == IMP || m == R_R || m == R { CpuFetch.FetchRegister(s); }
    else if m == R_HLI || m == R_HLD { CpuFetch.FetchFromHL(s); }
    else { CpuFetch.FetchToHL(s); }
  }

  /** FetchRegisterLatches for the modes that read an immediate byte or word. */
  lemma FetchImmediateLatches(s: Machine)
    requires s.cpu.instruction.Some? && s.cpu.instruction.value.mode in {D8, R_D8, R_A8, HL_SPD, R_D16, D16}
    requires CpuFetch.FetchData(s).Ok?
    ensures Latches(CpuFetch.FetchData(s).value.cpu) == Latches(s.cpu)
    ensures CpuFetch.FetchData(s).value.cpu.instruction == s.cpu.instruction
  {
    var m := s.cpu.instruction.value.mode;
    if m == D8 || m == R_D8 || m == R_A8 || m == HL_SPD { CpuFetch.FetchByteImmediate(s); }
    else { CpuFetch.FetchWordImmediate(s); }
  }

  /** FetchDataLatches for no instruction and for the modes outside RegisterModes. */
  lemma FetchMemoryLatches(s: Machine)
    requires !(s.cpu.instruction.Some? && s.cpu.instruction.value.mode in RegisterModes)
    requires CpuFetch.FetchData(s).Ok?
    ensures Latches(CpuFetch.FetchData(s).value.cpu) == Latches(s.cpu)
    ensures CpuFetch.FetchData(s).value.cpu.instruction == s.cpu.instruction
  {
    if s.cpu.instruction.Some? {
      var m := s.cpu.instruction.value.mode;
      if m == R_A16 { CpuFetch.FetchFromAbsolute(s); }
      else if m == A16_R || m == D16_R { CpuFetch.FetchToAddress(s); }
      else if m == A8_R { CpuFetch.FetchToHighPage(s); }
      else if m == MR_R { CpuFetch.FetchRegisterToMemory(s); }
      else if m == R_MR { CpuFetch.FetchFromRegisterAddress(s); }
      else if m == MR_D8 { CpuFetch.FetchImmediateToMemory(s); }
      else { CpuFetch.FetchMemoryOperand(s); }
    } else {
      CpuFetch.FetchNothing(s);
    }
  }

  /** The serial debug sink and its print leave the CPU alone. */
  lemma DebugKeepsCpu(s: Machine)
    requires Emu.DebugUpdate(s).Ok?
    ensures Emu.DebugPrint(Emu.DebugUpdate(s).value).cpu == s.cpu
  {
    if s.mem.serial[1] != Emu.TransferRequest {
      Emu.DebugIdle(s);
    } else if s.debug.size < DebugBufferSize {
      Emu.DebugAppends(s);
    } else {
      Emu.DebugOverflow(s);
    }
  }

  /**
   * Up to the handler, an instruction step leaves the latches: the machine
   * the handler starts from has the CPU's IME, pending enable and halt flag.
   */
  lemma BeforeExecute(s: Machine)
    requires CpuFetch.FetchInstruction(s).Ok?
    requires CpuFetch.FetchData(CpuFetch.FetchInstruction(s).value).Ok?
    requires Emu.DebugUpdate(CpuFetch.FetchData(CpuFetch.FetchInstruction(s).value).value).Ok?
    ensures var s2 := CpuFetch.FetchData(CpuFetch.FetchInstruction(s).value).value;
      var e := Emu.DebugPrint(Emu.DebugUpdate(s2).value);
      && Latches(e.cpu) == Latches(s.cpu)
      && e.cpu.instruction == GetInstruction(Bus.ReadByte(s.mem, s.cpu.regs.pc).value)
  {
    CpuFetch.FetchInstructionEffect(s);
    var s1 := CpuFetch.FetchInstruction(s).value;
    FetchDataLatches(s1);
    var s2 := CpuFetch.FetchData(s1).value;
    DebugKeepsCpu(s2);
  }

  /** EI and DI in the opcode table. */
  lemma EnableDisableOpcodes()
    ensures GetInstruction(0xFB) == Some(Instruction(EI)) && GetInstruction(0xF3) == Some(Instruction(DI))
  {
  }

  /** The instruction half of a step is the handler run on the machine BeforeExecute describes. */
  lemma RunInstructionSteps(s: Machine)
    requires RunInstruction(s).Ok?
    ensures CpuFetch.FetchInstruction(s).Ok?
    ensures CpuFetch.FetchData(CpuFetch.FetchInstruction(s).value).Ok?
    ensures Emu.DebugUpdate(CpuFetch.FetchData(CpuFetch.FetchInstruction(s).value).value).Ok?
    ensures var s2 := CpuFetch.FetchData(CpuFetch.FetchInstruction(s).value).value;
      RunInstruction(s) == CpuProc.Execute(Emu.DebugPrint(Emu.DebugUpdate(s2).value))
  {
  }

  /** Execute runs the handler Dispatch chooses for the latched instruction. */
  lemma ExecuteIsDispatch(e: Machine, ins: Instruction)
    requires e.cpu.instruction == Some(ins)
    ensures CpuProc.Execute(e) == CpuProc.Dispatch(e, ins)
  {
  }

  /** EI and DI spend one cycle and set the latches. */
  lemma ExecuteEnableDisable(e: Machine, ins: Instruction)
    requires ins.kind == EI || ins.kind == DI
    requires e.cpu.instruction == Some(ins) && CpuProc.Execute(e).Ok?
    ensures var r := CpuProc.Execute(e).value;
      && r.cpu.enableInterrupts == (ins.kind == EI)
      && r.cpu.interruptsEnabled == (ins.kind == EI && e.cpu.interruptsEnabled)
  {
    ExecuteIsDispatch(e, ins);
    if ins.kind == EI { CpuProc.DispatchEnable(e, ins); } else { CpuProc.DispatchDisable(e, ins); }
    CpuProc.CycleKeeps(e, 1);
  }

  /** The machine EI or DI's handler starts from, and its result. */
  lemma EnableDisableStep(s: Machine, op: u8)
    requires op == 0xFB || op == 0xF3
    requires !s.cpu.halted && Bus.ReadByte(s.mem, s.cpu.regs.pc) == Ok(op) && RunInstruction(s).Ok?
    ensures var b := RunInstruction(s).value;
      && b.cpu.enableInterrupts == (op == 0xFB)
      && b.cpu.interruptsEnabled == (op == 0xFB && s.cpu.interruptsEnabled)
  {
    RunInstructionSteps(s);
    BeforeExecute(s);
    var s2 := CpuFetch.FetchData(CpuFetch.FetchInstruction(s).value).value;
    var e := Emu.DebugPrint(Emu.DebugUpdate(s2).value);
    EnableDisableOpcodes();
    ExecuteEnableDisable(e, e.cpu.instruction.value);
  }

  /**
   * EI latency: a step that executes EI with IME clear services nothing
   * and ends with IME set (the pending enable stays raised), so the next
   * step runs its instruction before any interrupt can be serviced.
   */
  lemma EnableLatency(s: Machine)
    requires !s.cpu.halted && !s.cpu.interruptsEnabled
    requires Bus.ReadByte(s.mem, s.cpu.regs.pc) == Ok(0xFB) && RunInstruction(s).Ok?
    ensures var b := RunInstruction(s).value;
      && !b.cpu.interruptsEnabled && b.cpu.enableInterrupts
      && Step(s) == Ok(b.(cpu := b.cpu.(interruptsEnabled := true)))
  {
    EnableDisableStep(s, 0xFB);
    TailWithoutIme(RunInstruction(s).value);
  }

  /** DI takes effect at once: the step that executes it services nothing and ends with IME and the pending enable clear. */
  lemma DisableAtOnce(s: Machine)
    requires !s.cpu.halted
    requires Bus.ReadByte(s.mem, s.cpu.regs.pc) == Ok(0xF3) && RunInstruction(s).Ok?
    ensures var b := RunInstruction(s).value;
      && !b.cpu.interruptsEnabled && !b.cpu.enableInterrupts
      && Step(s) == Ok(b)
  {
    EnableDisableStep(s, 0xF3);
    TailWithoutIme(RunInstruction(s).value);
  }

  /**
   * A step from a state with IME set whose instruction leaves IME set
   * services the highest-priority requested source after the instruction:
   * the return address pushed is the PC the instruction left.
   */
  lemma ServiceAfterInstruction(s: Machine, t: IntType)
    requires !s.cpu.halted && RunInstruction(s).Ok?
    requires var b := RunInstruction(s).value;
      b.cpu.interruptsEnabled && StackInRam(b.cpu.regs.sp) && Requested(b.mem, t)
      && forall u :: IntIndex(u) < IntIndex(t) ==> !Requested(b.mem, u)
    ensures Step(s).Ok?
    ensures var b := RunInstruction(s).value; var r := Step(s).value;
      && r.cpu.regs.pc == Vector(t) && !r.cpu.interruptsEnabled && !r.cpu.enableInterrupts
      && r.mem.ram == CpuProc.PushedRam(b.mem.ram, b.cpu.regs.sp, b.cpu.regs.pc)
  {
    TailWithIme(RunInstruction(s).value, t);
  }
}
