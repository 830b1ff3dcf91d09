/**
 * The first two stages of CPU::Step: FetchInstruction reads the opcode at
 * PC and looks up its table entry; FetchData reads the operand its
 * addressing mode names into `fetched_data`, latches a memory destination
 * in `mem_dest`, advances PC over immediate bytes and spends the machine
 * cycles of the memory accesses through EMU::Cycle.
 */
module CpuFetch {
  import opened Bits
  import opened Types
  import opened Registers
  import opened Instructions
  import opened EmuState
  import opened CpuMemory
  import Bus
  import Emu

  /** FetchInstruction: the opcode at PC (PC advances) and its table entry. */
  function FetchInstruction(s: Machine): Result<Machine>
  {
    var (s1, op) :- ReadBytePC(s);
    Ok(s1.(cpu := s1.cpu.(opcode := op, instruction := GetInstruction(op))))
  }

  /** `x | 0xFF00` on a 16-bit value: the high page, at the low byte of x. */
  function HighPage(x: u16): u16
  {
    0xFF00 + x % 0x100
  }

  /** The machine with `fetched_data` set. */
  function WithFetched(s: Machine, v: u16): (r: Machine)
    ensures r.cpu.fetched == v && r == s.(cpu := s.cpu.(fetched := v))
  {
    s.(cpu := s.cpu.(fetched := v))
  }

  /** The first three statements of FetchData: no destination, nothing fetched. */
  function Reset(s: Machine): (r: Machine)
    ensures r.cpu.memDest == 0 && !r.cpu.destIsMem && r.cpu.fetched == 0
    ensures r == s.(cpu := s.cpu.(memDest := 0, destIsMem := false, fetched := 0))
  {
    s.(cpu := s.cpu.(memDest := 0, destIsMem := false, fetched := 0))
  }

  /** FetchData: reset, then the case of the instruction's addressing mode (none for a null instruction). */
  function FetchData(s: Machine): Result<Machine>
  {
    var s0 := Reset(s);
    match s.cpu.instruction
    case None => Ok(s0)
    case Some(ins) => FetchMode(s0, ins)
  }

  /** The address a register names: `0xFF00 | C` for C, the register itself otherwise. */
  function RegisterAddress(regs: RegisterFile, t: RegisterType): u16
  {
    if t == C then HighPage(regs.Read(t)) else regs.Read(t)
  }

  /** An operand read from the bus at `a`, in one cycle. */
  function FetchAt(s: Machine, a: u16): Result<Machine>
  {
    var v :- Bus.ReadByte(s.mem, a);
    Emu.Cycle(WithFetched(s, v), 1)
  }

  /** The byte at PC as the operand, in one cycle. */
  function FetchByte(s: Machine): Result<Machine>
  {
    var (s1, b) :- ReadBytePC(s);
    Emu.Cycle(WithFetched(s1, b), 1)
  }

  /** The word at PC as the operand, in two cycles. */
  function FetchWord(s: Machine): Result<Machine>
  {
    var (s1, w) :- ReadWordPC(s);
    Emu.Cycle(WithFetched(s1, w), 2)
  }

  /** The word at PC as an address (two cycles), then the operand read there (one cycle). */
  function FetchIndirect(s: Machine): Result<Machine>
  {
    var (s1, w) :- ReadWordPC(s);
    var s2 :- Emu.Cycle(s1, 2);
    FetchAt(s2, w)
  }

  /** The destination `a`, one cycle, then the source register as the operand. */
  function FetchToMem(s: Machine, a: u16, src: RegisterType): Result<Machine>
  {
    var s1 :- Emu.Cycle(SetMemDest(s, a), 1);
    Ok(WithFetched(s1, s1.cpu.regs.Read(src)))
  }

  /** The word at PC as the destination, the source register as the operand. */
  function FetchToWordAddress(s: Machine, src: RegisterType): Result<Machine>
  {
    var (s1, w) :- ReadWordPC(s);
    FetchToMem(s1, w, src)
  }

  /** `0xFF00 | byte` for the byte at PC as the destination, the source register as the operand. */
  function FetchToHighAddress(s: Machine, src: RegisterType): Result<Machine>
  {
    var (s1, b) :- ReadBytePC(s);
    FetchToMem(s1, HighPage(b), src)
  }

  /** The byte at PC as the operand (one cycle), then the destination register's address. */
  function FetchByteToMem(s: Machine, dst: RegisterType): Result<Machine>
  {
    var s1 :- FetchByte(s);
    Ok(SetMemDest(s1, s1.cpu.regs.Read(dst)))
  }

  /**
   * The switch of FetchData. Every mode has a case, so the `exit(-7)` after
   * it is never reached. The cases are disjoint; here they are grouped by
   * where the operand comes from: registers only, memory at an address a
   * register holds, or the one or two bytes after the opcode.
   */
  function FetchMode(s: Machine, ins: Instruction): Result<Machine>
  {
    if IsRegisterMode(ins.mode) then FetchFromRegisters(s, ins)
    else if IsIndirectMode(ins.mode) then FetchFromMemory(s, ins)
    else FetchImmediate(s, ins)
  }

  /** The modes that touch no memory. */
  predicate IsRegisterMode(m: AddrMode)
  {
    m == IMP || m == R_R || m == R || m == HLI_R || m == HLD_R || m == MR_R
  }

  /** The modes that read the byte at an address a register holds. */
  predicate IsIndirectMode(m: AddrMode)
  {
    m == R_HLI || m == R_HLD || m == R_MR || m == MR
  }

  /** The modes that read a word after the opcode. */
  predicate IsWordImmediateMode(m: AddrMode)
  {
    m == R_D16 || m == D16 || m == R_A16 || m == A16_R || m == D16_R
  }

  function FetchFromRegisters(s: Machine, ins: Instruction): Result<Machine>
  {
    var regs := s.cpu.regs;
    var m := ins.mode;
    if m == R_R then Ok(WithFetched(s, regs.Read(ins.reg2)))
    else if m == R then Ok(WithFetched(s, regs.Read(ins.reg1)))
    else if m == HLI_R || m == HLD_R then Ok(WithFetched(SetMemDest(s, regs.Read(HL)), regs.Read(ins.reg2)))
    else if m == MR_R then Ok(SetMemDest(WithFetched(s, regs.Read(ins.reg2)), RegisterAddress(regs, ins.reg1)))
    else Ok(s)
  }

  function FetchFromMemory(s: Machine, ins: Instruction): Result<Machine>
  {
    var regs := s.cpu.regs;
    var m := ins.mode;
    if m == R_HLI || m == R_HLD then FetchAt(s, regs.Read(HL))
    else if m == R_MR then FetchAt(s, RegisterAddress(regs, ins.reg2))
    else FetchAt(SetMemDest(s, regs.Read(ins.reg1)), regs.Read(ins.reg1))
  }

  function FetchImmediate(s: Machine, ins: Instruction): Result<Machine>
  {
    if IsWordImmediateMode(ins.mode) then FetchWordOperand(s, ins) else FetchByteOperand(s, ins)
  }

  function FetchWordOperand(s: Machine, ins: Instruction): Result<Machine>
  {
    var m := ins.mode;
    if m == R_A16 then FetchIndirect(s)
    else if m == A16_R || m == D16_R then FetchToWordAddress(s, ins.reg2)
    else FetchWord(s)
  }

  function FetchByteOperand(s: Machine, ins: Instruction): Result<Machine>
  {
    var m := ins.mode;
    if m == A8_R then FetchToHighAddress(s, ins.reg2)
    else if m == MR_D8 then FetchByteToMem(s, ins.reg1)
    else FetchByte(s)
  }

  /** The modes whose operand goes to memory: FetchData latches a destination for them. */
  predicate IsMemDestMode(m: AddrMode)
  {
    m == HLI_R || m == HLD_R || m == A16_R || m == D16_R || m == A8_R || m == MR_R || m == MR_D8 || m == MR
  }

  // ---------------------------------------------------------------------
  // Properties
  // ---------------------------------------------------------------------

  /**
   * n machine cycles were spent between s and r: the clock 4n ticks
   * further, the memory as n cycles leave it, and the debug buffer as it was.
   */
  predicate Spent(s: Machine, r: Machine, n: nat)
  {
    r.cycles == Emu.Clock(s.cycles, n) && Emu.CyclesSpec(s.mem, r.mem, n) && r.debug == s.debug
  }

  /** A Cycle that does not fault spends its cycles and leaves the CPU alone. */
  lemma CycleSpends(s: Machine, n: u8)
    requires Emu.Cycle(s, n).Ok?
    ensures Spent(s, Emu.Cycle(s, n).value, n) && Emu.Cycle(s, n).value.cpu == s.cpu
  {
    Emu.CycleEffect(s, n);
  }

  /**
   * FetchInstruction latches the opcode at PC and its (never null) table
   * entry, and moves PC on by one; memory, cycles and the rest of the CPU
   * stay.
   */
  lemma FetchInstructionEffect(s: Machine)
    ensures var pc := s.cpu.regs.pc; var rd := Bus.ReadByte(s.mem, pc);
      && (rd.Fail? ==> FetchInstruction(s) == Fail(rd.fault))
      && (rd.Ok? ==> FetchInstruction(s) == Ok(s.(cpu := s.cpu.(
            regs := s.cpu.regs.(pc := Wrap16(pc + 1)), opcode := rd.value, instruction := GetInstruction(rd.value)))))
      && (FetchInstruction(s).Ok? ==> FetchInstruction(s).value.cpu.instruction.Some?)
  {
  }

  /** FetchAt reads the byte at `a` into the operand and spends one cycle. */
  lemma FetchAtEffect(s: Machine, a: u16)
    ensures var rd := Bus.ReadByte(s.mem, a);
      && (rd.Fail? ==> FetchAt(s, a) == Fail(rd.fault))
      && (FetchAt(s, a).Ok? ==>
            && rd.Ok?
            && FetchAt(s, a).value.cpu == s.cpu.(fetched := rd.value)
            && Spent(s, FetchAt(s, a).value, 1))
  {
    var rd := Bus.ReadByte(s.mem, a);
    if rd.Ok? && FetchAt(s, a).Ok? {
      CycleSpends(WithFetched(s, rd.value), 1);
    }
  }

  /** The CPU half and the clock of FetchAt, without the rest of the cycle. */
  lemma FetchAtClock(s: Machine, a: u16)
    ensures FetchAt(s, a).Ok? ==>
      && Bus.ReadByte(s.mem, a).Ok?
      && FetchAt(s, a).value.cpu == s.cpu.(fetched := Bus.ReadByte(s.mem, a).value)
      && FetchAt(s, a).value.cycles == Emu.Clock(s.cycles, 1)
  {
  }

  /** FetchByte reads the byte at PC into the operand, moves PC on by one and spends one cycle. */
  lemma FetchByteEffect(s: Machine)
    ensures var pc := s.cpu.regs.pc; var rd := Bus.ReadByte(s.mem, pc);
      && (rd.Fail? ==> FetchByte(s) == Fail(rd.fault))
      && (FetchByte(s).Ok? ==>
            && rd.Ok?
            && FetchByte(s).value.cpu == s.cpu.(regs := s.cpu.regs.(pc := Wrap16(pc + 1)), fetched := rd.value)
            && Spent(s, FetchByte(s).value, 1))
  {
    var rd := Bus.ReadByte(s.mem, s.cpu.regs.pc);
    if rd.Ok? && FetchByte(s).Ok? {
      var s1 := ReadBytePC(s).value.0;
      CycleSpends(WithFetched(s1, rd.value), 1);
    }
  }

  /**
   * FetchWord reads the little-endian word at PC into the operand, moves
   * PC on by two and spends two cycles.
   */
  lemma FetchWordEffect(s: Machine)
    ensures var pc := s.cpu.regs.pc;
      FetchWord(s).Ok? ==>
        var lo := Bus.ReadByte(s.mem, pc); var hi := Bus.ReadByte(s.mem, Wrap16(pc + 1));
        && lo.Ok? && hi.Ok?
        && FetchWord(s).value.cpu == s.cpu.(regs := s.cpu.regs.(pc := Wrap16(pc + 2)), fetched := Join(hi.value, lo.value))
        && Spent(s, FetchWord(s).value, 2)
  {
    if FetchWord(s).Ok? {
      ReadWordPCEffect(s);
      var (s1, w) := ReadWordPC(s).value;
      CycleSpends(WithFetched(s1, w), 2);
    }
  }

  /** FetchToMem latches `a` as the destination and the source register as the operand, in one cycle. */
  lemma FetchToMemEffect(s: Machine, a: u16, src: RegisterType)
    ensures FetchToMem(s, a, src).Ok? ==>
      && FetchToMem(s, a, src).value.cpu == s.cpu.(memDest := a, destIsMem := true, fetched := s.cpu.regs.Read(src))
      && Spent(s, FetchToMem(s, a, src).value, 1)
  {
    if FetchToMem(s, a, src).Ok? {
      CycleSpends(SetMemDest(s, a), 1);
    }
  }

  /**
   * What an R_A16 fetch from `s` leaves in `out`: the word at PC and PC + 1
   * (low byte first) read, PC two further, two cycles, then the byte at
   * that word's address read at the third cycle into `fetched`.
   */
  ghost predicate IndirectFetched(s: Machine, out: Machine)
  {
    var pc := s.cpu.regs.pc;
    var lo := Bus.ReadByte(s.mem, pc); var hi := Bus.ReadByte(s.mem, Wrap16(pc + 1));
    && lo.Ok? && hi.Ok?
    && var s1 := WithRegs(s, s.cpu.regs.(pc := Wrap16(pc + 2)));
    && Emu.Cycle(s1, 2).Ok?
    && var rd := Bus.ReadByte(Emu.Cycle(s1, 2).value.mem, Join(hi.value, lo.value));
    && rd.Ok?
    && out.cpu == s1.cpu.(fetched := rd.value)
    && out.cycles == Emu.Clock(s.cycles, 3)
  }

  /**
   * FetchIndirect reads the word at PC (PC on by two), spends two cycles,
   * then reads the byte at that word from the memory those cycles left and
   * spends one more.
   */
  lemma FetchIndirectEffect(s: Machine)
    ensures FetchIndirect(s).Ok? ==> IndirectFetched(s, FetchIndirect(s).value)
  {
    if FetchIndirect(s).Ok? {
      IndirectSteps(s);
      ReadWordPCEffect(s);
      var (s1, w) := ReadWordPC(s).value;
      var s2 := Emu.Cycle(s1, 2).value;
      assert s2.cycles == Emu.Clock(s.cycles, 2) && s2.cpu == s1.cpu;
      FetchAtClock(s2, w);
      Emu.ClockCompose(s.cycles, 2, 1);
    }
  }

  /** The three steps of FetchIndirect, one after the other. */
  lemma IndirectSteps(s: Machine)
    requires FetchIndirect(s).Ok?
    ensures ReadWordPC(s).Ok? && Emu.Cycle(ReadWordPC(s).value.0, 2).Ok?
    ensures FetchIndirect(s) == FetchAt(Emu.Cycle(ReadWordPC(s).value.0, 2).value, ReadWordPC(s).value.1)
  {
  }

  /** FetchToWordAddress latches the word at PC as the destination (PC on by two) in one cycle. */
  lemma FetchToWordAddressEffect(s: Machine, src: RegisterType)
    ensures var pc := s.cpu.regs.pc;
      FetchToWordAddress(s, src).Ok? ==>
        var lo := Bus.ReadByte(s.mem, pc); var hi := Bus.ReadByte(s.mem, Wrap16(pc + 1));
        && lo.Ok? && hi.Ok?
        && var rf := s.cpu.regs.(pc := Wrap16(pc + 2));
        && FetchToWordAddress(s, src).value.cpu
           == s.cpu.(regs := rf, memDest := Join(hi.value, lo.value), destIsMem := true, fetched := rf.Read(src))
        && Spent(s, FetchToWordAddress(s, src).value, 1)
  {
    if FetchToWordAddress(s, src).Ok? {
      ReadWordPCEffect(s);
      var (s1, w) := ReadWordPC(s).value;
      FetchToMemEffect(s1, w, src);
    }
  }

  /** On a byte, `0xFF00 | b` is 0xFF00 + b. */
  lemma HighPageOfByte(b: u16)
    requires b < 0x100
    ensures HighPage(b) == 0xFF00 + b
  {
    DivUnique(b, 0x100, 0, b);
  }

  /** FetchToHighAddress latches `0xFF00 + byte` for the byte at PC (PC on by one) in one cycle. */
  lemma FetchToHighAddressEffect(s: Machine, src: RegisterType)
    ensures var pc := s.cpu.regs.pc; var rd := Bus.ReadByte(s.mem, pc);
      && (rd.Fail? ==> FetchToHighAddress(s, src) == Fail(rd.fault))
      && (FetchToHighAddress(s, src).Ok? ==>
            && rd.Ok?
            && var rf := s.cpu.regs.(pc := Wrap16(pc + 1));
            && FetchToHighAddress(s, src).value.cpu
               == s.cpu.(regs := rf, memDest := 0xFF00 + rd.value, destIsMem := true, fetched := rf.Read(src))
            && Spent(s, FetchToHighAddress(s, src).value, 1))
  {
    var rd := Bus.ReadByte(s.mem, s.cpu.regs.pc);
    if rd.Ok? && FetchToHighAddress(s, src).Ok? {
      var s1 := ReadBytePC(s).value.0;
      HighPageOfByte(rd.value);
      FetchToMemEffect(s1, HighPage(rd.value), src);
    }
  }

  /** FetchByteToMem fetches the byte at PC (PC on by one, one cycle) and latches the register's address. */
  lemma FetchByteToMemEffect(s: Machine, dst: RegisterType)
    ensures var pc := s.cpu.regs.pc; var rd := Bus.ReadByte(s.mem, pc);
      && (rd.Fail? ==> FetchByteToMem(s, dst) == Fail(rd.fault))
      && (FetchByteToMem(s, dst).Ok? ==>
            && rd.Ok?
            && var rf := s.cpu.regs.(pc := Wrap16(pc + 1));
            && FetchByteToMem(s, dst).value.cpu
               == s.cpu.(regs := rf, memDest := rf.Read(dst), destIsMem := true, fetched := rd.value)
            && Spent(s, FetchByteToMem(s, dst).value, 1))
  {
    FetchByteEffect(s);
  }

  /** The address C names is 0xFF00 + C. */
  lemma RegisterAddressOfC(regs: RegisterFile)
    ensures RegisterAddress(regs, C) == 0xFF00 + regs.c
  {
    HighPageOfByte(regs.c);
  }

  // Which shape each mode's case takes.

  /** FetchData is its reset followed by the case of the mode. */
  lemma FetchDataCase(s: Machine)
    requires s.cpu.instruction.Some?
    ensures FetchData(s) == FetchMode(Reset(s), s.cpu.instruction.value)
  {
  }

  lemma ByteModes(s: Machine, ins: Instruction)
    requires ins.mode == D8 || ins.mode == R_D8 || ins.mode == R_A8 || ins.mode == HL_SPD
    ensures FetchMode(s, ins) == FetchByte(s)
  {
    assert !IsRegisterMode(ins.mode) && !IsIndirectMode(ins.mode) && !IsWordImmediateMode(ins.mode);
    assert FetchMode(s, ins) == FetchByteOperand(s, ins);
  }

  lemma HLReadCase(s: Machine, ins: Instruction)
    requires ins.mode == R_HLI || ins.mode == R_HLD
    ensures FetchMode(s, ins) == FetchAt(s, s.cpu.regs.Read(HL))
  {
  }

  lemma WordCase(s: Machine, ins: Instruction)
    requires ins.mode == R_D16 || ins.mode == D16
    ensures FetchMode(s, ins) == FetchWord(s)
  {
    assert !IsRegisterMode(ins.mode) && !IsIndirectMode(ins.mode) && IsWordImmediateMode(ins.mode);
    assert FetchMode(s, ins) == FetchWordOperand(s, ins);
  }

  lemma IndirectCase(s: Machine, ins: Instruction)
    requires ins.mode == R_A16
    ensures FetchMode(s, ins) == FetchIndirect(s)
  {
    assert !IsRegisterMode(ins.mode) && !IsIndirectMode(ins.mode) && IsWordImmediateMode(ins.mode);
    assert FetchMode(s, ins) == FetchWordOperand(s, ins);
  }

  lemma WordAddressCase(s: Machine, ins: Instruction)
    requires ins.mode == A16_R || ins.mode == D16_R
    ensures FetchMode(s, ins) == FetchToWordAddress(s, ins.reg2)
  {
    assert !IsRegisterMode(ins.mode) && !IsIndirectMode(ins.mode) && IsWordImmediateMode(ins.mode);
    assert FetchMode(s, ins) == FetchWordOperand(s, ins);
  }

  lemma HighAddressCase(s: Machine, ins: Instruction)
    requires ins.mode == A8_R
    ensures FetchMode(s, ins) == FetchToHighAddress(s, ins.reg2)
  {
    assert !IsRegisterMode(ins.mode) && !IsIndirectMode(ins.mode) && !IsWordImmediateMode(ins.mode);
    assert FetchMode(s, ins) == FetchByteOperand(s, ins);
  }

  lemma RegisterAddressCase(s: Machine, ins: Instruction)
    requires ins.mode == R_MR
    ensures FetchMode(s, ins) == FetchAt(s, RegisterAddress(s.cpu.regs, ins.reg2))
  {
  }

  lemma ByteToMemCase(s: Machine, ins: Instruction)
    requires ins.mode == MR_D8
    ensures FetchMode(s, ins) == FetchByteToMem(s, ins.reg1)
  {
    assert !IsRegisterMode(ins.mode) && !IsIndirectMode(ins.mode) && !IsWordImmediateMode(ins.mode);
    assert FetchMode(s, ins) == FetchByteOperand(s, ins);
  }

  lemma MemoryOperandCase(s: Machine, ins: Instruction)
    requires ins.mode == MR
    ensures var a := s.cpu.regs.Read(ins.reg1); FetchMode(s, ins) == FetchAt(SetMemDest(s, a), a)
  {
  }

  // What each mode does.

  /** Without an instruction FetchData only resets. */
  lemma FetchNothing(s: Machine)
    requires s.cpu.instruction == None
    ensures FetchData(s) == Ok(Reset(s))
  {
  }

  /**
   * IMP, R_R and R fetch nothing or a register: no memory access, PC where
   * it was, no cycle spent.
   */
  lemma FetchRegister(s: Machine)
    requires s.cpu.instruction.Some? && (var m := s.cpu.instruction.value.mode; m == IMP || m == R_R || m == R)
    ensures var ins := s.cpu.instruction.value; var rf := s.cpu.regs;
      FetchData(s) == Ok(WithFetched(Reset(s),
        if ins.mode == R_R then rf.Read(ins.reg2) else if ins.mode == R then rf.Read(ins.reg1) else 0))
  {
    FetchDataCase(s);
  }

  /** R_HLI and R_HLD read the byte at HL in one cycle; PC stays, and the step of HL is the handler's. */
  lemma FetchFromHL(s: Machine)
    requires s.cpu.instruction.Some? && (var m := s.cpu.instruction.value.mode; m == R_HLI || m == R_HLD)
    ensures var rd := Bus.ReadByte(s.mem, s.cpu.regs.Read(HL));
      && (rd.Fail? ==> FetchData(s) == Fail(rd.fault))
      && (FetchData(s).Ok? ==>
            && rd.Ok?
            && FetchData(s).value.cpu == Reset(s).cpu.(fetched := rd.value)
            && Spent(s, FetchData(s).value, 1))
  {
    FetchDataCase(s);
    HLReadCase(Reset(s), s.cpu.instruction.value);
    FetchAtEffect(Reset(s), s.cpu.regs.Read(HL));
  }

  /** HLI_R and HLD_R latch HL as the destination and fetch the source register, with no cycle. */
  lemma FetchToHL(s: Machine)
    requires s.cpu.instruction.Some? && (var m := s.cpu.instruction.value.mode; m == HLI_R || m == HLD_R)
    ensures var rf := s.cpu.regs;
      FetchData(s) == Ok(s.(cpu := s.cpu.(memDest := rf.Read(HL), destIsMem := true,
                                          fetched := rf.Read(s.cpu.instruction.value.reg2))))
  {
    FetchDataCase(s);
  }

  /**
   * D8, R_D8, R_A8 and HL_SPD fetch the byte at PC, move PC on by one and
   * spend one cycle.
   */
  lemma FetchByteImmediate(s: Machine)
    requires s.cpu.instruction.Some?
    requires var m := s.cpu.instruction.value.mode; m == D8 || m == R_D8 || m == R_A8 || m == HL_SPD
    ensures var pc := s.cpu.regs.pc; var rd := Bus.ReadByte(s.mem, pc);
      && (rd.Fail? ==> FetchData(s) == Fail(rd.fault))
      && (FetchData(s).Ok? ==>
            && rd.Ok?
            && FetchData(s).value.cpu == Reset(s).cpu.(regs := s.cpu.regs.(pc := Wrap16(pc + 1)), fetched := rd.value)
            && Spent(s, FetchData(s).value, 1))
  {
    FetchDataCase(s);
    ByteModes(Reset(s), s.cpu.instruction.value);
    FetchByteEffect(Reset(s));
  }

  /**
   * R_D16 and D16 fetch the little-endian word at PC, move PC on by two
   * and spend two cycles.
   */
  lemma FetchWordImmediate(s: Machine)
    requires s.cpu.instruction.Some? && (var m := s.cpu.instruction.value.mode; m == R_D16 || m == D16)
    ensures var pc := s.cpu.regs.pc;
      FetchData(s).Ok? ==>
        var lo := Bus.ReadByte(s.mem, pc); var hi := Bus.ReadByte(s.mem, Wrap16(pc + 1));
        && lo.Ok? && hi.Ok?
        && FetchData(s).value.cpu == Reset(s).cpu.(regs := s.cpu.regs.(pc := Wrap16(pc + 2)), fetched := Join(hi.value, lo.value))
        && Spent(s, FetchData(s).value, 2)
  {
    var r := Reset(s);
    FetchDataCase(s);
    WordCase(r, s.cpu.instruction.value);
    assert FetchData(s) == FetchWord(r);
    assert r.cpu.regs == s.cpu.regs && r.mem == s.mem;
    FetchWordEffect(r);
  }

  /**
   * R_A16 fetches the word at PC (two cycles), then reads the byte at that
   * address from the memory those cycles left (one more cycle).
   */
  lemma FetchFromAbsolute(s: Machine)
    requires s.cpu.instruction.Some? && s.cpu.instruction.value.mode == R_A16
    ensures FetchData(s).Ok? ==> IndirectFetched(Reset(s), FetchData(s).value)
  {
    var r := Reset(s);
    FetchDataCase(s);
    IndirectCase(r, s.cpu.instruction.value);
    if FetchData(s).Ok? {
      var out := FetchData(s).value;
      assert FetchIndirect(r) == Ok(out);
      FetchIndirectEffect(r);
    }
  }

  /**
   * A16_R and D16_R latch the word at PC as the destination and fetch the
   * source register; PC moves on by two and one cycle is spent.
   */
  lemma FetchToAddress(s: Machine)
    requires s.cpu.instruction.Some? && (var m := s.cpu.instruction.value.mode; m == A16_R || m == D16_R)
    ensures var pc := s.cpu.regs.pc;
      FetchData(s).Ok? ==>
        var lo := Bus.ReadByte(s.mem, pc); var hi := Bus.ReadByte(s.mem, Wrap16(pc + 1));
        && lo.Ok? && hi.Ok?
        && var rf := s.cpu.regs.(pc := Wrap16(pc + 2));
        && FetchData(s).value.cpu == s.cpu.(regs := rf, memDest := Join(hi.value, lo.value), destIsMem := true,
                                            fetched := rf.Read(s.cpu.instruction.value.reg2))
        && Spent(s, FetchData(s).value, 1)
  {
    var ins := s.cpu.instruction.value;
    var r := Reset(s);
    FetchDataCase(s);
    WordAddressCase(r, ins);
    assert FetchData(s) == FetchToWordAddress(r, ins.reg2);
    assert r.cpu.regs == s.cpu.regs && r.mem == s.mem;
    FetchToWordAddressEffect(r, ins.reg2);
    if FetchData(s).Ok? {
      SpentFromReset(s, FetchData(s).value, 1);
    }
  }

  /** Reset touches neither the clock, the memory nor the debug buffer. */
  lemma SpentFromReset(s: Machine, r: Machine, n: nat)
    requires Spent(Reset(s), r, n)
    ensures Spent(s, r, n)
  {
  }

  /**
   * A8_R latches `0xFF00 | byte` for the byte at PC as the destination and
   * fetches the source register, in one cycle.
   */
  lemma FetchToHighPage(s: Machine)
    requires s.cpu.instruction.Some? && s.cpu.instruction.value.mode == A8_R
    ensures var pc := s.cpu.regs.pc; var rd := Bus.ReadByte(s.mem, pc);
      && (rd.Fail? ==> FetchData(s) == Fail(rd.fault))
      && (FetchData(s).Ok? ==>
            && rd.Ok?
            && var rf := s.cpu.regs.(pc := Wrap16(pc + 1));
            && FetchData(s).value.cpu == s.cpu.(regs := rf, memDest := 0xFF00 + rd.value, destIsMem := true,
                                                fetched := rf.Read(s.cpu.instruction.value.reg2))
            && Spent(s, FetchData(s).value, 1))
  {
    var r := Reset(s);
    var src := s.cpu.instruction.value.reg2;
    FetchDataCase(s);
    HighAddressCase(r, s.cpu.instruction.value);
    assert FetchData(s) == FetchToHighAddress(r, src);
    assert r.cpu.regs == s.cpu.regs && r.mem == s.mem;
    FetchToHighAddressEffect(r, src);
    if FetchData(s).Ok? {
      SpentFromReset(s, FetchData(s).value, 1);
    }
  }

  /**
   * MR_R latches the first register as the destination, `0xFF00 | C` when
   * that register is C, and fetches the second; no cycle, no PC move.
   */
  lemma FetchRegisterToMemory(s: Machine)
    requires s.cpu.instruction.Some? && s.cpu.instruction.value.mode == MR_R
    ensures var ins := s.cpu.instruction.value; var rf := s.cpu.regs;
      FetchData(s) == Ok(s.(cpu := s.cpu.(
        memDest := if ins.reg1 == C then 0xFF00 + rf.c else rf.Read(ins.reg1),
        destIsMem := true, fetched := rf.Read(ins.reg2))))
  {
    FetchDataCase(s);
    RegisterAddressOfC(s.cpu.regs);
  }

  /**
   * R_MR reads the byte at the second register, at `0xFF00 | C` when that
   * register is C, in one cycle.
   */
  lemma FetchFromRegisterAddress(s: Machine)
    requires s.cpu.instruction.Some? && s.cpu.instruction.value.mode == R_MR
    ensures var ins := s.cpu.instruction.value; var rf := s.cpu.regs;
      var a := if ins.reg2 == C then 0xFF00 + rf.c else rf.Read(ins.reg2);
      var rd := Bus.ReadByte(s.mem, a);
      && (rd.Fail? ==> FetchData(s) == Fail(rd.fault))
      && (FetchData(s).Ok? ==>
            && rd.Ok?
            && FetchData(s).value.cpu == Reset(s).cpu.(fetched := rd.value)
            && Spent(s, FetchData(s).value, 1))
  {
    FetchDataCase(s);
    RegisterAddressCase(Reset(s), s.cpu.instruction.value);
    RegisterAddressOfC(s.cpu.regs);
    FetchAtEffect(Reset(s), RegisterAddress(s.cpu.regs, s.cpu.instruction.value.reg2));
  }

  /** MR_D8 fetches the byte at PC (one cycle) and latches the first register as the destination. */
  lemma FetchImmediateToMemory(s: Machine)
    requires s.cpu.instruction.Some? && s.cpu.instruction.value.mode == MR_D8
    ensures var pc := s.cpu.regs.pc; var rd := Bus.ReadByte(s.mem, pc);
      && (rd.Fail? ==> FetchData(s) == Fail(rd.fault))
      && (FetchData(s).Ok? ==>
            && rd.Ok?
            && var rf := s.cpu.regs.(pc := Wrap16(pc + 1));
            && FetchData(s).value.cpu == s.cpu.(regs := rf, memDest := rf.Read(s.cpu.instruction.value.reg1),
                                                destIsMem := true, fetched := rd.value)
            && Spent(s, FetchData(s).value, 1))
  {
    FetchDataCase(s);
    ByteToMemCase(Reset(s), s.cpu.instruction.value);
    FetchByteToMemEffect(Reset(s), s.cpu.instruction.value.reg1);
  }

  /** MR latches the register as the destination and fetches the byte stored there, in one cycle. */
  lemma FetchMemoryOperand(s: Machine)
    requires s.cpu.instruction.Some? && s.cpu.instruction.value.mode == MR
    ensures var a := s.cpu.regs.Read(s.cpu.instruction.value.reg1); var rd := Bus.ReadByte(s.mem, a);
      && (rd.Fail? ==> FetchData(s) == Fail(rd.fault))
      && (FetchData(s).Ok? ==>
            && rd.Ok?
            && FetchData(s).value.cpu == s.cpu.(memDest := a, destIsMem := true, fetched := rd.value)
            && Spent(s, FetchData(s).value, 1))
  {
    FetchDataCase(s);
    MemoryOperandCase(Reset(s), s.cpu.instruction.value);
    var a := s.cpu.regs.Read(s.cpu.instruction.value.reg1);
    FetchAtEffect(SetMemDest(Reset(s), a), a);
  }

  /** The eight memory-destination modes latch a destination. */
  lemma DestLatched(s: Machine)
    requires FetchData(s).Ok? && s.cpu.instruction.Some? && IsMemDestMode(s.cpu.instruction.value.mode)
    ensures FetchData(s).value.cpu.destIsMem
  {
    var m := s.cpu.instruction.value.mode;
    if m == HLI_R || m == HLD_R { FetchToHL(s); }
    else if m == A16_R || m == D16_R { FetchToAddress(s); }
    else if m == A8_R { FetchToHighPage(s); }
    else if m == MR_R { FetchRegisterToMemory(s); }
    else if m == MR_D8 { FetchImmediateToMemory(s); }
    else { FetchMemoryOperand(s); }
  }

  /** The other modes, and a null instruction, latch none. */
  lemma NoDestLatched(s: Machine)
    requires FetchData(s).Ok? && !(s.cpu.instruction.Some? && IsMemDestMode(s.cpu.instruction.value.mode))
    ensures !FetchData(s).value.cpu.destIsMem
  {
    if s.cpu.instruction.Some? {
      var m := s.cpu.instruction.value.mode;
      if m == IMP || m == R_R || m == R { FetchRegister(s); }
      else if m == R_HLI || m == R_HLD { FetchFromHL(s); }
      else if m == D8 || m == R_D8 || m == R_A8 || m == HL_SPD { FetchByteImmediate(s); }
      else if m == R_D16 || m == D16 { FetchWordImmediate(s); }
      else if m == R_A16 { FetchFromAbsolute(s); }
      else { FetchFromRegisterAddress(s); }
    }
  }

  /** FetchData latches a memory destination exactly for the eight memory-destination modes. */
  lemma DestIsMemExactly(s: Machine)
    requires FetchData(s).Ok?
    ensures FetchData(s).value.cpu.destIsMem <==>
      s.cpu.instruction.Some? && IsMemDestMode(s.cpu.instruction.value.mode)
  {
    if s.cpu.instruction.Some? && IsMemDestMode(s.cpu.instruction.value.mode) {
      DestLatched(s);
    } else {
      NoDestLatched(s);
    }
  }
}
