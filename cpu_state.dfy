/**
 * The state of class CPU apart from the memory it reaches through the bus:
 * the register file, the operand latched by the last fetch (`fetched_data`,
 * `mem_dest`, `mem_dest_isMem`), the current opcode and table entry, the
 * halt and single-step flags, and the interrupt master enable (IME) with
 * its pending copy set by EI. The interrupt flag (IF) and enable (IE) bytes
 * are held with the memory the bus reaches (module EmuState); the rules for
 * their bits are here.
 */
module CpuState {
  import opened Bits
  import opened Types
  import opened Registers
  import opened Instructions

  datatype CpuState = CpuState(
    regs: RegisterFile,
    fetched: u16,              // fetched_data
    memDest: u16,              // mem_dest
    destIsMem: bool,           // mem_dest_isMem
    opcode: u8,
    instruction: Option<Instruction>,  // None is the null pointer
    halted: bool,
    stepping: bool,
    interruptsEnabled: bool,   // IME
    enableInterrupts: bool)    // set by EI and RETI, moved into IME at the end of a step

  /** The registers the constructor loads: PC 0x0100, SP 0xFFFE, AF 0x01B0, BC 0x0013, DE 0x00D8, HL 0x014D. */
  function InitialRegisters(): RegisterFile
  {
    RegisterFile(0, 0, 0, 0, 0, 0, 0, 0, 0, 0).(pc := 0x100, sp := 0xFFFE)
      .Write(AF, 0x01B0).Write(BC, 0x0013).Write(DE, 0x00D8).Write(HL, 0x014D)
  }

  /** The same register file, byte by byte. */
  const InitialRegisterFile: RegisterFile := RegisterFile(0x01, 0xB0, 0x00, 0x13, 0x00, 0xD8, 0x01, 0x4D, 0xFFFE, 0x100)

  /** CPU::CPU: every other field takes its default member initialiser. */
  const InitialCpu: CpuState :=
    CpuState(InitialRegisterFile, 0, 0, false, 0, None, false, false, false, false)

  /** `IF_Flags & type` (or `IE_Flags & type`), as a truth value. */
  predicate IsInterruptSet(flags: u8, t: IntType)
  {
    And8(flags, IntBit(t)) != 0
  }

  /** `IF_Flags | type` */
  function RequestInterrupt(flags: u8, t: IntType): u8
  {
    Or8(flags, IntBit(t))
  }

  /** `IF_Flags &= ~type`, as the interrupt service does it. */
  function AcknowledgeInterrupt(flags: u8, t: IntType): u8
  {
    And8(flags, 0xFF - IntBit(t))
  }

  // ---------------------------------------------------------------------
  // Properties
  // ---------------------------------------------------------------------

  /** The constructor's register values, read back through the register file. */
  lemma InitialValues()
    ensures InitialRegisters() == InitialRegisterFile
    ensures var r := InitialCpu.regs;
      r.Read(PC) == 0x100 && r.Read(SP) == 0xFFFE && r.Read(AF) == 0x01B0
      && r.Read(BC) == 0x0013 && r.Read(DE) == 0x00D8 && r.Read(HL) == 0x014D
    ensures !InitialCpu.halted && !InitialCpu.interruptsEnabled && !InitialCpu.enableInterrupts
    ensures InitialCpu.instruction == None
  {
    var r0 := RegisterFile(0, 0, 0, 0, 0, 0, 0, 0, 0, 0).(pc := 0x100, sp := 0xFFFE);
    assert Hi(0x01B0) == 0x01 && Lo(0x01B0) == 0xB0;
    var r1 := r0.Write(AF, 0x01B0);
    assert r1 == r0.(a := 0x01, f := 0xB0);
    assert Hi(0x0013) == 0 && Lo(0x0013) == 0x13;
    var r2 := r1.Write(BC, 0x0013);
    assert r2 == r1.(b := 0, c := 0x13);
    assert Hi(0x00D8) == 0 && Lo(0x00D8) == 0xD8;
    var r3 := r2.Write(DE, 0x00D8);
    assert r3 == r2.(d := 0, e := 0xD8);
    assert Hi(0x014D) == 0x01 && Lo(0x014D) == 0x4D;
    var r4 := r3.Write(HL, 0x014D);
    assert r4 == r3.(h := 0x01, l := 0x4D);
    assert r4 == InitialRegisterFile;
  }

  /** The AND of a byte with a single-bit mask below bit 5 is that bit in place. */
  lemma MaskValue(x: u8, k: nat)
    requires k < 5
    ensures Pow2(k) < 0x100
    ensures And8(x, Pow2(k)) == Bit(x, k) * Pow2(k)
  {
    Pow2Values();
    PowMono(k, 8);
    AndSingleBit(x, k, 8);
  }

  /** A bit test against a single-bit mask is a test of that bit. */
  lemma MaskTest(x: u8, k: nat)
    requires k < 5
    ensures Pow2(k) < 0x100
    ensures And8(x, Pow2(k)) != 0 <==> Bit(x, k) == 1
  {
    MaskValue(x, k);
    BitTimesPositive(Bit(x, k), Pow2(k));
  }

  /** IsInterruptSet tests the source's own bit of the flags byte. */
  lemma InterruptTests(flags: u8, t: IntType)
    ensures IsInterruptSet(flags, t) <==> Bit(flags, IntIndex(t)) == 1
  {
    IntBitsAreSingleBits(t, t);
    MaskTest(flags, IntIndex(t));
  }

  /** The OR of a source's bit into IF is the arithmetic SetBit of its index. */
  lemma RequestIsSetBit(flags: u8, t: IntType)
    ensures RequestInterrupt(flags, t) == SetBit(flags, IntIndex(t))
  {
    IntBitsAreSingleBits(t, t);
    Pow2Values();
    SetBitIsOr(flags, IntIndex(t), 8);
  }

  /**
   * RequestInterrupt sets the source's bit of IF, leaves every other bit,
   * and requesting twice is requesting once.
   */
  lemma RequestInterruptEffect(flags: u8, t: IntType, j: nat)
    requires j < 8
    ensures var r := RequestInterrupt(flags, t);
      Bit(r, j) == (if j == IntIndex(t) then 1 else Bit(flags, j))
      && RequestInterrupt(r, t) == r
  {
    var r := RequestInterrupt(flags, t);
    RequestIsSetBit(flags, t);
    RequestIsSetBit(r, t);
    SetBitBit(flags, IntIndex(t), j);
    SetBitBit(flags, IntIndex(t), IntIndex(t));
  }

  /** The AND with the complement is the arithmetic ClearBit of the source's index. */
  lemma AcknowledgeIsClearBit(flags: u8, t: IntType)
    ensures AcknowledgeInterrupt(flags, t) == ClearBit(flags, IntIndex(t))
  {
    IntBitsAreSingleBits(t, t);
    Pow2Values();
    ClearBitIsAndNot(flags, IntIndex(t), 8);
  }

  /** Acknowledging clears only the source's bit of IF. */
  lemma AcknowledgeInterruptEffect(flags: u8, t: IntType, j: nat)
    requires j < 8
    ensures Bit(AcknowledgeInterrupt(flags, t), j) == (if j == IntIndex(t) then 0 else Bit(flags, j))
  {
    AcknowledgeIsClearBit(flags, t);
    ClearBitBit(flags, IntIndex(t), j);
  }
}
