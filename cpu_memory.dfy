/**
 * The CPU's own memory accesses: reading the instruction stream at PC
 * (ReadBytePC, ReadWordPC), latching a memory destination (SetMemDest), and
 * the stack (Stack_PushByte/PushWord/PopByte/PopWord), all through the bus.
 * None of them spends a machine cycle; the callers do.
 */
module CpuMemory {
  import opened Bits
  import opened Types
  import opened Registers
  import opened EmuState
  import Bus
  import Ram
  import CpuState

  /** The byte at PC, and the machine with PC advanced by one (wrapping at 0xFFFF). */
  function ReadBytePC(s: Machine): (r: Result<(Machine, u8)>)
    ensures Bus.ReadByte(s.mem, s.cpu.regs.pc).Fail? ==> r == Fail(Bus.ReadByte(s.mem, s.cpu.regs.pc).fault)
    ensures r.Ok? ==>
      r.value.1 == Bus.ReadByte(s.mem, s.cpu.regs.pc).value && r.value.0 == WithRegs(s, s.cpu.regs.(pc := Wrap16(s.cpu.regs.pc + 1)))
  {
    var v :- Bus.ReadByte(s.mem, s.cpu.regs.pc);
    Ok((WithRegs(s, s.cpu.regs.Increment(PC)), v))
  }

  /** The little-endian word at PC: the low byte first, then the high byte. */
  function ReadWordPC(s: Machine): Result<(Machine, u16)>
  {
    var (s1, lo) :- ReadBytePC(s);
    var (s2, hi) :- ReadBytePC(s1);
    Ok((s2, Join(hi, lo)))
  }

  /** SetMemDest: the operand goes to memory at `a`. */
  function SetMemDest(s: Machine, a: u16): (r: Machine)
    ensures r.cpu.memDest == a && r.cpu.destIsMem
    ensures r == s.(cpu := s.cpu.(memDest := a, destIsMem := true))
  {
    s.(cpu := s.cpu.(memDest := a, destIsMem := true))
  }

  /** A bus write from the CPU: only the memory half of the machine changes. */
  function WriteMem(s: Machine, a: u16, v: u8): (r: Result<Machine>)
    ensures Bus.WriteByte(s.mem, a, v).Fail? ==> r == Fail(Bus.WriteByte(s.mem, a, v).fault)
    ensures r.Ok? ==> r.value == WithMem(s, Bus.WriteByte(s.mem, a, v).value)
  {
    var m :- Bus.WriteByte(s.mem, a, v);
    Ok(WithMem(s, m))
  }

  /** Stack_PushByte: SP goes down by one, then the byte is written at the new SP. */
  function PushByte(s: Machine, v: u8): Result<Machine>
  {
    var s1 := WithRegs(s, s.cpu.regs.Decrement(SP));
    WriteMem(s1, s1.cpu.regs.sp, v)
  }

  /** Stack_PushWord: the high byte first, then the low byte. */
  function PushWord(s: Machine, v: u16): Result<Machine>
  {
    var s1 :- PushByte(s, Hi(v));
    PushByte(s1, Lo(v))
  }

  /** Stack_PopByte: the byte at SP, then SP goes up by one. */
  function PopByte(s: Machine): Result<(Machine, u8)>
  {
    var v :- Bus.ReadByte(s.mem, s.cpu.regs.sp);
    Ok((WithRegs(s, s.cpu.regs.Increment(SP)), v))
  }

  /** Stack_PopWord: the low byte first, then the high byte. */
  function PopWord(s: Machine): Result<(Machine, u16)>
  {
    var low :- PopByte(s);
    var high :- PopByte(low.0);
    Ok((high.0, Join(high.1, low.1)))
  }

  /** IsConditionMet: NZ, Z, NC and C test the flags, no condition always holds. */
  function IsConditionMet(rf: RegisterFile, cond: CondType): bool
  {
    match cond
    case CT_NZ => rf.GetZeroFlag() == 0
    case CT_Z => rf.GetZeroFlag() != 0
    case CT_NC => rf.GetCarryFlag() == 0
    case CT_C => rf.GetCarryFlag() != 0
    case CT_NONE => true
  }

  // ---------------------------------------------------------------------
  // Properties
  // ---------------------------------------------------------------------

  /**
   * ReadWordPC returns `lo | hi << 8` of the bytes at PC and PC + 1, leaves PC
   * two further on, and changes nothing else.
   */
  lemma ReadWordPCEffect(s: Machine)
    requires ReadWordPC(s).Ok?
    ensures var pc := s.cpu.regs.pc; var (r, w) := ReadWordPC(s).value;
      && Bus.ReadByte(s.mem, pc).Ok? && Bus.ReadByte(s.mem, Wrap16(pc + 1)).Ok?
      && w == Bus.ReadByte(s.mem, pc).value + 0x100 * Bus.ReadByte(s.mem, Wrap16(pc + 1)).value
      && r == WithRegs(s, s.cpu.regs.(pc := Wrap16(pc + 2)))
  {
    var pc: int := s.cpu.regs.pc;
    assert Wrap16(Wrap16(pc + 1) + 1) == Wrap16(pc + 2);
  }

  /** The two stack slots below SP are RAM. */
  predicate StackInRam(sp: u16)
  {
    Bus.IsRamAddr(Offset16(sp, -1)) && Bus.IsRamAddr(Offset16(sp, -2))
  }

  /** Stack_PushByte into RAM: SP one lower, the byte written there, and nothing else changed. */
  lemma PushByteEffect(s: Machine, v: u8)
    requires Bus.IsRamAddr(Offset16(s.cpu.regs.sp, -1))
    ensures var a := Offset16(s.cpu.regs.sp, -1);
      PushByte(s, v) == Ok(s.(cpu := s.cpu.(regs := s.cpu.regs.(sp := a)), mem := s.mem.(ram := Bus.RamWrite(s.mem.ram, a, v))))
  {
    var a := Offset16(s.cpu.regs.sp, -1);
    assert s.cpu.regs.Decrement(SP) == s.cpu.regs.(sp := a);
    Bus.RamAccess(s.mem, a, v);
  }

  /**
   * Stack_PushWord into RAM writes the high byte at SP - 1 and the low byte
   * at SP - 2, lowers SP by two, and changes nothing but RAM and SP.
   */
  lemma PushWordEffect(s: Machine, v: u16)
    requires StackInRam(s.cpu.regs.sp)
    ensures PushWord(s, v).Ok?
    ensures var sp := s.cpu.regs.sp; var r := PushWord(s, v).value;
      && r == WithRegs(s, s.cpu.regs.(sp := Offset16(sp, -2))).(mem := s.mem.(ram := r.mem.ram))
      && Bus.ReadByte(r.mem, Offset16(sp, -1)) == Ok(Hi(v))
      && Bus.ReadByte(r.mem, Offset16(sp, -2)) == Ok(Lo(v))
  {
    var sp := s.cpu.regs.sp;
    var a1 := Offset16(sp, -1);
    var a2 := Offset16(sp, -2);
    PushByteEffect(s, Hi(v));
    var s1 := PushByte(s, Hi(v)).value;
    assert Wrap16(a1 - 1) == a2;
    PushByteEffect(s1, Lo(v));
    var r := PushByte(s1, Lo(v)).value;
    Bus.RamAccess(r.mem, a1, 0);
    Bus.RamAccess(r.mem, a2, 0);
    Bus.RamReadWrite(s1.mem.ram, a2, a1, Lo(v));
    Bus.RamReadWrite(s1.mem.ram, a2, a2, Lo(v));
    Bus.RamReadWrite(s.mem.ram, a1, a1, Hi(v));
  }

  /**
   * Stack_PopWord from readable addresses reads the low byte at SP and the
   * high byte at SP + 1, raises SP by two, and changes nothing else.
   */
  lemma PopWordEffect(s: Machine)
    requires Bus.ReadByte(s.mem, s.cpu.regs.sp).Ok? && Bus.ReadByte(s.mem, Offset16(s.cpu.regs.sp, 1)).Ok?
    ensures PopWord(s).Ok?
    ensures var sp := s.cpu.regs.sp; var (r, w) := PopWord(s).value;
      && w == Join(Bus.ReadByte(s.mem, Offset16(sp, 1)).value, Bus.ReadByte(s.mem, sp).value)
      && r == WithRegs(s, s.cpu.regs.(sp := Offset16(sp, 2)))
  {
    var sp := s.cpu.regs.sp;
    PopByteEffect(s);
    var s1 := PopByte(s).value.0;
    PopByteEffect(s1);
    OffsetCompose(sp, 1, 1, 2);
  }

  /** Stack_PopByte from a readable address: that byte, SP one higher, and nothing else changed. */
  lemma PopByteEffect(s: Machine)
    requires Bus.ReadByte(s.mem, s.cpu.regs.sp).Ok?
    ensures PopByte(s) == Ok((WithRegs(s, s.cpu.regs.(sp := Offset16(s.cpu.regs.sp, 1))), Bus.ReadByte(s.mem, s.cpu.regs.sp).value))
  {
    assert s.cpu.regs.Increment(SP) == s.cpu.regs.(sp := Offset16(s.cpu.regs.sp, 1));
  }

  /** Stack_PopByte from RAM: the byte at SP, SP one higher, and nothing else changed. */
  lemma PopByteFromRam(s: Machine)
    requires Bus.IsRamAddr(s.cpu.regs.sp)
    ensures PopByte(s) == Ok((WithRegs(s, s.cpu.regs.(sp := Offset16(s.cpu.regs.sp, 1))), Bus.RamRead(s.mem.ram, s.cpu.regs.sp)))
  {
    Bus.RamAccess(s.mem, s.cpu.regs.sp, 0);
  }

  /** Stack_PushWord into RAM in closed form: two RAM writes below SP, and SP two lower. */
  lemma PushWordToRam(s: Machine, v: u16)
    requires StackInRam(s.cpu.regs.sp)
    ensures var sp := s.cpu.regs.sp; var a1 := Offset16(sp, -1); var a2 := Offset16(sp, -2);
      PushWord(s, v) == Ok(WithRegs(s, s.cpu.regs.(sp := a2)).(mem := s.mem.(ram := Bus.RamWrite(Bus.RamWrite(s.mem.ram, a1, Hi(v)), a2, Lo(v)))))
  {
    var sp := s.cpu.regs.sp;
    PushByteEffect(s, Hi(v));
    OffsetCompose(sp, -1, -1, -2);
    PushByteEffect(PushByte(s, Hi(v)).value, Lo(v));
  }

  /** Stack_PopWord from RAM in closed form: the bytes at SP and SP + 1, and SP two higher. */
  lemma PopWordFromRam(s: Machine)
    requires Bus.IsRamAddr(s.cpu.regs.sp) && Bus.IsRamAddr(Offset16(s.cpu.regs.sp, 1))
    ensures var sp := s.cpu.regs.sp;
      PopWord(s) == Ok((WithRegs(s, s.cpu.regs.(sp := Offset16(sp, 2))),
                        Join(Bus.RamRead(s.mem.ram, Offset16(sp, 1)), Bus.RamRead(s.mem.ram, sp))))
  {
    var sp := s.cpu.regs.sp;
    PopByteFromRam(s);
    PopByteFromRam(PopByte(s).value.0);
    OffsetCompose(sp, 1, 1, 2);
  }

  /**
   * A pop after a push returns the pushed word, restores SP, and leaves the
   * registers as they were: the stack is last in, first out.
   */
  lemma PushPopRoundTrip(s: Machine, v: u16)
    requires StackInRam(s.cpu.regs.sp)
    ensures PushWord(s, v).Ok? && PopWord(PushWord(s, v).value).Ok?
    ensures var (r, w) := PopWord(PushWord(s, v).value).value;
      w == v && r.cpu == s.cpu && r == s.(mem := r.mem) && r.mem == s.mem.(ram := r.mem.ram)
  {
    var sp := s.cpu.regs.sp;
    var a1 := Offset16(sp, -1);
    var a2 := Offset16(sp, -2);
    PushWordToRam(s, v);
    var p := PushWord(s, v).value;
    OffsetCompose(sp, -2, 1, -1);
    OffsetCompose(sp, -2, 2, 0);
    assert Offset16(a2, 1) == a1 && Offset16(a2, 2) == sp;
    PopWordFromRam(p);
    var ram1 := Bus.RamWrite(s.mem.ram, a1, Hi(v));
    Bus.RamReadWrite(ram1, a2, a2, Lo(v));
    Bus.RamReadWrite(ram1, a2, a1, Lo(v));
    Bus.RamReadWrite(s.mem.ram, a1, a1, Hi(v));
    JoinSplit(v);
  }

  /** The stack the constructor sets up, SP = 0xFFFE, lies in high RAM. */
  lemma InitialStackInRam()
    ensures StackInRam(CpuState.InitialCpu.regs.sp)
  {
    CpuState.InitialValues();
    assert CpuState.InitialCpu.regs.sp == 0xFFFE;
    assert Ram.IsHramAddr(0xFFFD) && Ram.IsHramAddr(0xFFFC);
  }

  /** Each condition is a flag test, NZ and NC are the negations of Z and C, and no condition always holds. */
  lemma ConditionFlags(rf: RegisterFile)
    ensures IsConditionMet(rf, CT_Z) <==> rf.f >= 0x80
    ensures IsConditionMet(rf, CT_C) <==> (rf.f / 16) % 2 == 1
    ensures IsConditionMet(rf, CT_NZ) == !IsConditionMet(rf, CT_Z)
    ensures IsConditionMet(rf, CT_NC) == !IsConditionMet(rf, CT_C)
    ensures IsConditionMet(rf, CT_NONE)
  {
    FlagGetters(rf);
  }
}
