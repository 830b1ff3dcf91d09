/**
 * The instruction handlers of class CPU (cpu_proc.cpp), one function per
 * handler, on the machine as FetchData leaves it: the operand in
 * `fetched`, a memory destination in `memDest` when `destIsMem` is set.
 * Each handler spends its machine cycles through EMU::Cycle in the order
 * the source does, so the clock, timer and DMA advance in step with the
 * registers. Execute dispatches on the instruction type.
 */
module CpuProc {
  import opened Bits
  import opened Types
  import opened Registers
  import opened Instructions
  import opened EmuState
  import opened CpuMemory
  import opened Alu
  import Bus
  import Emu
  import CpuFetch
  import Timer
  import Dma
  import Ram

  /** The machine with the CPU's interrupt latches replaced. */
  function WithInterrupts(s: Machine, ime: bool, pending: bool): (r: Machine)
    ensures r.cpu.interruptsEnabled == ime && r.cpu.enableInterrupts == pending
    ensures r == s.(cpu := s.cpu.(interruptsEnabled := ime, enableInterrupts := pending))
  {
    s.(cpu := s.cpu.(interruptsEnabled := ime, enableInterrupts := pending))
  }

  /** NOP: one machine cycle. */
  function Nop(s: Machine): Result<Machine>
  {
    Emu.Cycle(s, 1)
  }

  /**
   * LD: HL moves on for the (HL+) and (HL-) forms; a memory destination
   * gets the operand as a byte, or as a word (one more cycle) when the
   * source register is 16 bits; LD HL,SP+e adds the signed byte with H and
   * C from the unsigned low nibble and byte; otherwise the operand goes to
   * the destination register.
   */
  function Load(s: Machine, ins: Instruction): Result<Machine>
  {
    var s1 :- Emu.Cycle(s, 1);
    var rf := s1.cpu.regs;
    var rf1 :=
      if ins.mode == R_HLI || ins.mode == HLI_R then rf.Increment(HL)
      else if ins.mode == R_HLD || ins.mode == HLD_R then rf.Decrement(HL)
      else rf;
    var s2 := WithRegs(s1, rf1);
    var d := s2.cpu.fetched;
    if s2.cpu.destIsMem then
      var s3 :- Emu.Cycle(s2, 1);
      if IsWordSize(ins.reg2) then
        var m :- Bus.WriteWord(s3.mem, s3.cpu.memDest, d);
        Emu.Cycle(WithMem(s3, m), 1)
      else
        WriteMem(s3, s3.cpu.memDest, Lo(d))
    else if ins.mode == HL_SPD then
      var s3 :- Emu.Cycle(s2, 1);
      var base := s3.cpu.regs.Read(ins.reg2);
      var offset := ToI8(Lo(d));
      // `offset & 0xF` and `offset & 0xFF` on the promoted signed value are
      // its low bits, which Euclidean % gives for negative offsets too.
      var h := base % 0x10 + offset % 0x10 >= 0x10;
      var c := base % 0x100 + offset % 0x100 >= 0x100;
      Ok(WithRegs(s3, s3.cpu.regs.SetFlags(0, 0, Flag(h), Flag(c)).Write(ins.reg1, Wrap16(base + offset))))
    else
      Ok(WithRegs(s2, rf1.Write(ins.reg1, d)))
  }

  /** LDH: a memory destination gets the operand byte; otherwise the byte at `0xFF00 | operand` is loaded. */
  function LoadHigh(s: Machine, ins: Instruction): Result<Machine>
  {
    var s1 :- Emu.Cycle(s, 1);
    if s1.cpu.destIsMem then WriteMem(s1, s1.cpu.memDest, Lo(s1.cpu.fetched))
    else
      var v :- Bus.ReadByte(s1.mem, CpuFetch.HighPage(s1.cpu.fetched));
      Ok(WithRegs(CpuFetch.WithFetched(s1, v), s1.cpu.regs.Write(ins.reg1, v)))
  }

  /**
   * The tail INC and DEC share: the new value goes to memory (one more
   * cycle) or to the register; a 16-bit register outside the (HL) form sets
   * no flag, otherwise Z follows the low byte, N is `n`, H is `h` and C stays.
   */
  function IncDecStore(s: Machine, ins: Instruction, v: u16, n: i8, h: bool): Result<Machine>
  {
    var word := IsWordSize(ins.reg1);
    var s1 :- if word then Emu.Cycle(s, 1) else Ok(s);
    var s2 :-
      if s1.cpu.destIsMem then
        var s' :- WriteMem(s1, s1.cpu.memDest, v % 0x100);
        Emu.Cycle(s', 1)
      else Ok(WithRegs(s1, s1.cpu.regs.Write(ins.reg1, v)));
    if word && ins.mode != MR then Ok(s2)
    else Ok(WithRegs(s2, s2.cpu.regs.SetFlags(Flag(v % 0x100 == 0), n, Flag(h), Keep)))
  }

  /** INC: the operand plus one; H when the low nibble overflows. */
  function Inc(s: Machine, ins: Instruction): Result<Machine>
  {
    var s1 :- Emu.Cycle(s, 1);
    var d := s1.cpu.fetched;
    IncDecStore(s1, ins, Wrap16(d + 1), 0, d % 0x10 + 1 > 0xF)
  }

  /** DEC: the operand minus one; H when the low nibble borrows. */
  function Dec(s: Machine, ins: Instruction): Result<Machine>
  {
    var s1 :- Emu.Cycle(s, 1);
    var d := s1.cpu.fetched;
    IncDecStore(s1, ins, Wrap16(d - 1), 1, d % 0x10 - 1 < 0)
  }

  /**
   * ADD: the sum in 16 bits. On a byte register Z, H and C come from the
   * byte sum. A 16-bit register costs a cycle more: ADD SP,e costs another,
   * adds the signed byte and clears Z; ADD HL,rr keeps Z and takes H from
   * bit 11 and C from bit 15.
   */
  function Add(s: Machine, ins: Instruction): Result<Machine>
  {
    var s1 :- Emu.Cycle(s, 1);
    var rf := s1.cpu.regs;
    var cur := rf.Read(ins.reg1);
    var d := s1.cpu.fetched;
    var h := HalfCarry(cur, d, 0);
    var c := Carry(cur, d, 0);
    if IsWordSize(ins.reg1) then
      var s2 :- Emu.Cycle(s1, 1);
      if ins.reg1 == SP then
        var s3 :- Emu.Cycle(s2, 1);
        Ok(WithRegs(s3, AddSPRegs(rf, d)))
      else
        Ok(WithRegs(s2, AddWordRegs(rf, ins.reg1, d)))
    else
      Ok(WithRegs(s1, AddRegs(rf, ins.reg1, d, 0)))
  }

  /** The register effect of ADD SP,e: the signed byte added, Z and N cleared, H and C from the unsigned low nibble and byte. */
  function AddSPRegs(rf: RegisterFile, d: u16): RegisterFile
  {
    var cur := rf.sp;
    rf.Write(SP, Wrap16(cur + ToI8(Lo(d)))).SetFlags(0, 0, Flag(HalfCarry(cur, d, 0)), Flag(Carry(cur, d, 0)))
  }

  /** The register effect of ADD rr,rr: the sum in 16 bits, Z kept, H from bit 11, C from bit 15. */
  function AddWordRegs(rf: RegisterFile, t: RegisterType, d: u16): RegisterFile
  {
    var cur := rf.Read(t);
    // `isZero = -1` in a u8 reaches SetFlags as the i8 -1: Z is kept.
    rf.Write(t, Wrap16(cur + d)).SetFlags(Keep, 0, Flag(cur % 0x1000 + d % 0x1000 > 0xFFF), Flag(cur + d > 0xFFFF))
  }

  /** The register effect of a byte ADD or ADC: the sum with `carry` in 16 bits, Z, H and C from the byte sum. */
  function AddRegs(rf: RegisterFile, t: RegisterType, d: u16, carry: nat): RegisterFile
  {
    var cur := rf.Read(t);
    var v := Wrap16(cur + d + carry);
    rf.Write(t, v).SetFlags(Flag(v % 0x100 == 0), 0, Flag(HalfCarry(cur, d, carry)), Flag(Carry(cur, d, carry)))
  }

  /** ADC: the sum with the carry flag, Z, H and C from the byte sum. */
  function Adc(s: Machine, ins: Instruction): Result<Machine>
  {
    var s1 :- Emu.Cycle(s, 1);
    var rf := s1.cpu.regs;
    Ok(WithRegs(s1, AddRegs(rf, ins.reg1, s1.cpu.fetched, rf.GetCarryFlag())))
  }

  /**
   * SUB: the difference in 32 bits (less the carry for the SBC type, which
   * Execute never sends here). On a byte register H and C are the nibble
   * and byte borrows; a 16-bit register costs a cycle more and takes H and
   * C from other tests.
   */
  function Sub(s: Machine, ins: Instruction): Result<Machine>
  {
    var s1 :- Emu.Cycle(s, 1);
    var rf := s1.cpu.regs;
    var cur := rf.Read(ins.reg1);
    var d := s1.cpu.fetched;
    var v := Wrap32(cur - d - (if ins.kind == SBC then rf.GetCarryFlag() else 0));
    var rf1 := rf.Write(ins.reg1, v % 0x1_0000);
    var z := Flag(v % 0x100 == 0);
    if IsWordSize(ins.reg1) then
      var s2 :- Emu.Cycle(WithRegs(s1, rf1), 1);
      Ok(WithRegs(s2, rf1.SetFlags(z, 1, Flag(cur % 0x1000 + d % 0x1000 > 0xFFF), Flag(v > 0xFFFF))))
    else
      Ok(WithRegs(s1, SubRegs(rf, ins.reg1, d, if ins.kind == SBC then rf.GetCarryFlag() else 0)))
  }

  /** The register effect of a byte SUB: the difference less `carry` in 32 bits stored as 16, Z from its low byte, H and C the borrows. */
  function SubRegs(rf: RegisterFile, t: RegisterType, d: u16, carry: nat): RegisterFile
  {
    var cur := rf.Read(t);
    var v := Wrap32(cur - d - carry);
    rf.Write(t, v % 0x1_0000).SetFlags(Flag(v % 0x100 == 0), 1, Flag(HalfBorrow(cur, d, 0)), Flag(Borrow(cur, d, 0)))
  }

  /** SBC: the difference less the carry flag, in 16 bits, with the borrows as H and C. */
  function Sbc(s: Machine, ins: Instruction): Result<Machine>
  {
    var s1 :- Emu.Cycle(s, 1);
    Ok(WithRegs(s1, SbcRegs(s1.cpu.regs, ins.reg1, s1.cpu.fetched)))
  }

  /** The register effect of SBC: the difference less the carry flag in 16 bits, the borrows as H and C. */
  function SbcRegs(rf: RegisterFile, t: RegisterType, d: u16): RegisterFile
  {
    var cur := rf.Read(t);
    var carry := rf.GetCarryFlag();
    var v := Wrap16(cur - d - carry);
    rf.Write(t, v).SetFlags(Flag(v % 0x100 == 0), 1, Flag(HalfBorrow(cur, d, carry)), Flag(Borrow(cur, d, carry)))
  }

  /** A rotation of A: the new A, Z, N and H cleared, C the bit rotated out. */
  function RotateA(s: Machine, r: Shifted): (m: Machine)
  {
    WithRegs(s, RotateRegs(s.cpu.regs, r))
  }

  /** The register effect of a rotation of A. */
  function RotateRegs(rf: RegisterFile, r: Shifted): RegisterFile
  {
    rf.Write(A, r.value).SetFlags(0, 0, 0, Flag(r.bit != 0))
  }

  /** RLCA: rotate A left, bit 7 into bit 0 and C. */
  function Rlca(s: Machine): Result<Machine>
  {
    var s1 :- Emu.Cycle(s, 1);
    Ok(RotateA(s1, Rlc(s1.cpu.regs.a)))
  }

  /** RRCA: rotate A right, bit 0 into bit 7 and C. */
  function Rrca(s: Machine): Result<Machine>
  {
    var s1 :- Emu.Cycle(s, 1);
    Ok(RotateA(s1, Rrc(s1.cpu.regs.a)))
  }

  /** RLA and RRA: rotate A through the carry flag. */
  function RotateThroughCarry(s: Machine, ins: Instruction): Result<Machine>
  {
    var s1 :- Emu.Cycle(s, 1);
    var rf := s1.cpu.regs;
    Ok(RotateA(s1, if ins.kind == RLA then Rl(rf.a, rf.GetCarryFlag()) else Rr(rf.a, rf.GetCarryFlag())))
  }

  /**
   * JP and JR: JP HL jumps unconditionally; JR first turns the operand into
   * PC plus the signed offset; the jump is taken, at one cycle more, only
   * when the condition holds.
   */
  function Jump(s: Machine, ins: Instruction): Result<Machine>
  {
    var s1 :- Emu.Cycle(s, 1);
    var rf := s1.cpu.regs;
    if ins.mode == R then Ok(WithRegs(s1, rf.Write(PC, rf.Read(ins.reg1))))
    else
      var s2 := if ins.mode == D8 then CpuFetch.WithFetched(s1, Wrap16(rf.pc + ToI8(Lo(s1.cpu.fetched)))) else s1;
      if IsConditionMet(rf, ins.cond) then Emu.Cycle(WithRegs(s2, rf.Write(PC, s2.cpu.fetched)), 1)
      else Ok(s2)
  }

  /** CALL and RST: RST's target is its parameter; when the condition holds PC is pushed and replaced, in three more cycles. */
  function Call(s: Machine, ins: Instruction): Result<Machine>
  {
    var s1 :- Emu.Cycle(s, 1);
    var s2 := if ins.kind == RST then CpuFetch.WithFetched(s1, ins.param) else s1;
    if IsConditionMet(s2.cpu.regs, ins.cond) then
      var s3 :- PushWord(s2, s2.cpu.regs.pc);
      Emu.Cycle(WithRegs(s3, s3.cpu.regs.Write(PC, s2.cpu.fetched)), 3)
    else Ok(s2)
  }

  /**
   * RET and RETI: RETI raises the pending enable; when the condition holds
   * the return address is popped into PC, in two more cycles and one more
   * again for a conditional return.
   */
  function Return(s: Machine, ins: Instruction): Result<Machine>
  {
    var s1 :- Emu.Cycle(s, 2);
    var s2 := if ins.kind == RETI then WithInterrupts(s1, s1.cpu.interruptsEnabled, true) else s1;
    if IsConditionMet(s2.cpu.regs, ins.cond) then
      var (s3, target) :- PopWord(s2);
      var s4 :- Emu.Cycle(s3, 2);
      var s5 := WithRegs(s4, s4.cpu.regs.Write(PC, target));
      if ins.cond != CT_NONE then Emu.Cycle(s5, 1) else Ok(s5)
    else Ok(s2)
  }

  /** EI raises the pending enable only; DI clears it and the master enable. */
  function EnableDisable(s: Machine, ins: Instruction): Result<Machine>
  {
    var s1 :- Emu.Cycle(s, 1);
    if ins.kind == EI then Ok(WithInterrupts(s1, s1.cpu.interruptsEnabled, true))
    else Ok(WithInterrupts(s1, false, false))
  }

  /** The CB operation of an operand byte, or the fault of the NO_IMPL default. */
  function CbEffectOf(d: u16, v: u8, carry: u8): (r: Result<CbEffect>)
    requires carry <= 1
  {
    match CbKind(d)
    case None => Fail(InvalidCbOpcode(CbOpcode(d)))
    case Some(kind) =>
      match CbCompute(kind, v, carry, CbBitIndex(d))
      case None => Fail(InvalidCbOpcode(CbOpcode(d)))
      case Some(e) => Ok(e)
  }

  /** F after a CB operation: BIT sets Z, clears N, sets H and keeps C; the shifts set Z, N = H = 0 and C; RES and SET keep F. */
  function CbFlags(rf: RegisterFile, e: CbEffect): RegisterFile
  {
    match e
    case Test(zero) => rf.SetFlags(Flag(zero), 0, 1, Keep)
    case Store(_, setsFlags, zero, bit) =>
      if setsFlags then rf.SetFlags(Flag(zero), 0, 0, Flag(bit != 0)) else rf
  }

  /** The registers after a CB operation on a register operand: the flags, then the new value stored back unless it is BIT. */
  function CbRegs(rf: RegisterFile, reg: RegisterType, e: CbEffect): RegisterFile
  {
    var rf1 := CbFlags(rf, e);
    if e.Store? then rf1.Write(reg, e.value) else rf1
  }

  /**
   * CB: two cycles, the operand register (or the byte at HL through the
   * bus), the operation; BIT only sets flags, the others store the new
   * value back, to memory at one cycle more.
   */
  function Cb(s: Machine): Result<Machine>
  {
    var s1 :- Emu.Cycle(s, 2);
    var d := s1.cpu.fetched;
    var rf := s1.cpu.regs;
    var reg := CbOperand(d);
    var regValue := rf.Read(reg);
    var cur :- if reg == HL then Bus.ReadByte(s1.mem, regValue) else Ok(Lo(regValue));
    var e :- CbEffectOf(d, cur, rf.GetCarryFlag());
    if reg == HL && e.Store? then
      var s2 :- WriteMem(WithRegs(s1, CbFlags(rf, e)), regValue, e.value);
      Emu.Cycle(s2, 1)
    else Ok(WithRegs(s1, CbRegs(rf, reg, e)))
  }

  /** AND, OR and XOR of A with the operand's low byte: Z from the result, H set for AND only, N and C cleared. */
  function Logic(s: Machine, ins: Instruction): Result<Machine>
  {
    var s1 :- Emu.Cycle(s, 1);
    var a := s1.cpu.regs.a;
    var d := s1.cpu.fetched % 0x100;
    var result :- match ins.kind
      case AND => Ok(And8(a, d))
      case OR => Ok(Or8(a, d))
      case XOR => Ok(Xor8(a, d))
      case _ => Fail(InvalidLogicOp);
    Ok(WithRegs(s1, LogicRegs(s1.cpu.regs, result, ins.kind == AND)))
  }

  /** The register effect of AND, OR and XOR: the result in A, Z from it, H as given, N and C cleared. */
  function LogicRegs(rf: RegisterFile, result: u8, half: bool): RegisterFile
  {
    rf.Write(A, result).SetFlags(Flag(result == 0), 0, Flag(half), 0)
  }

  /** CP: `(i16)A - (i16)operand`, kept only in the flags: Z if it is 0, C if it is negative, H the nibble borrow. */
  function Compare(s: Machine): Result<Machine>
  {
    var s1 :- Emu.Cycle(s, 1);
    Ok(WithRegs(s1, CompareRegs(s1.cpu.regs, s1.cpu.fetched)))
  }

  /** The register effect of CP: A less the operand as 16-bit signed values, only F written. */
  function CompareRegs(rf: RegisterFile, d: u16): RegisterFile
  {
    var a := rf.a;
    var result := ToI16(a - ToI16(d));
    rf.SetFlags(Flag(result == 0), 1, Flag(a % 0x10 - d % 0x10 < 0), Flag(result < 0))
  }

  /** PUSH writes the register to the stack in three more cycles; POP reads it back in two, AF with the low nibble of F cleared. */
  function PushPop(s: Machine, ins: Instruction): Result<Machine>
  {
    var s1 :- Emu.Cycle(s, 1);
    if ins.kind == PUSH then
      var s2 :- PushWord(s1, s1.cpu.regs.Read(ins.reg1));
      Emu.Cycle(s2, 3)
    else
      var popped :- PopWord(s1);
      var s3 :- Emu.Cycle(popped.0, 2);
      Ok(WithRegs(s3, s3.cpu.regs.Write(ins.reg1, if ins.reg1 == AF then MaskFlags(popped.1) else popped.1)))
  }

  /** `v & 0xFFF0`: the low nibble cleared. */
  function MaskFlags(v: u16): u16
  {
    v - v % 0x10
  }

  /** `f & 0xF0`: F with its four unused low bits cleared and its flag bits kept. */
  function FlagBits(f: u8): (r: u8)
    ensures r % 0x10 == 0 && r / 0x10 == f / 0x10
  {
    f - f % 0x10
  }

  /** STOP does nothing. */
  function Stop(s: Machine): Result<Machine>
  {
    Ok(s)
  }

  /** HALT sets `halted`, spending no cycle. */
  function Halt(s: Machine): Result<Machine>
  {
    Ok(s.(cpu := s.cpu.(halted := true)))
  }

  /** CPL: A becomes its complement, N and H are set. */
  function Complement(s: Machine): Result<Machine>
  {
    var s1 :- Emu.Cycle(s, 1);
    Ok(WithRegs(s1, ComplementRegs(s1.cpu.regs)))
  }

  /** The register effect of CPL. */
  function ComplementRegs(rf: RegisterFile): RegisterFile
  {
    // `~reg_a` is the int -(A + 1); Write keeps its low byte.
    rf.Write(A, Wrap16(-(rf.a + 1))).SetFlags(Keep, 1, 1, Keep)
  }

  /** DAA: the decimal correction of A, Z from the result, H cleared, N kept, C when the high digit was corrected. */
  function DecimalAdjust(s: Machine): Result<Machine>
  {
    var s1 :- Emu.Cycle(s, 1);
    Ok(WithRegs(s1, DaaRegs(s1.cpu.regs)))
  }

  /** The register effect of DAA. */
  function DaaRegs(rf: RegisterFile): RegisterFile
  {
    var sub := rf.GetSubtractionFlag() != 0;
    var result := DaaResult(rf.a, sub, rf.GetHalfCarryFlag() != 0, rf.GetCarryFlag() != 0);
    rf.Write(A, result).SetFlags(Flag(result == 0), Keep, 0, Flag(DaaCarry(rf.a, sub, rf.GetCarryFlag() != 0)))
  }

  /** SCF sets C, CCF complements it; both clear N and H and keep Z. */
  function CarryFlag(s: Machine, ins: Instruction): Result<Machine>
  {
    var s1 :- Emu.Cycle(s, 1);
    Ok(WithRegs(s1, CarryFlagRegs(s1.cpu.regs, ins.kind == SCF)))
  }

  /** The register effect of SCF (`set`) and CCF. */
  function CarryFlagRegs(rf: RegisterFile, setCarry: bool): RegisterFile
  {
    rf.SetFlags(Keep, 0, 0, if setCarry then 1 else Flag(rf.GetCarryFlag() == 0))
  }

  /**
   * The switch of Execute: the handler for each type; a type no handler
   * takes does nothing. EI and DI, which set the interrupt latches, are
   * split off first; the cases are disjoint, so this changes nothing.
   */
  function Dispatch(s: Machine, ins: Instruction): Result<Machine>
  {
    if ins.kind.DI? || ins.kind.EI? then EnableDisable(s, ins) else DispatchData(s, ins)
  }

  /** The rest of the switch. */
  function DispatchData(s: Machine, ins: Instruction): Result<Machine>
  {
    match ins.kind
    case HALT => Halt(s)
    case NOP => Nop(s)
    case LD => Load(s, ins)
    case LDH => LoadHigh(s, ins)
    case INC => Inc(s, ins)
    case DEC => Dec(s, ins)
    case RLCA => Rlca(s)
    case ADD => Add(s, ins)
    case ADC => Adc(s, ins)
    case SUB => Sub(s, ins)
    case SBC => Sbc(s, ins)
    case RRCA => Rrca(s)
    case CALL | RST => Call(s, ins)
    case JR | JP => Jump(s, ins)
    case RETI | RET => Return(s, ins)
    case CB => Cb(s)
    case AND | XOR | OR => Logic(s, ins)
    case CP => Compare(s)
    case POP | PUSH => PushPop(s, ins)
    case STOP => Stop(s)
    case RLA | RRA => RotateThroughCarry(s, ins)
    case DAA => DecimalAdjust(s)
    case CPL => Complement(s)
    case CCF | SCF => CarryFlag(s, ins)
    case _ => Ok(s)
  }

  /** Execute: nothing for a null instruction, otherwise the handler of its type. */
  function Execute(s: Machine): Result<Machine>
  {
    match s.cpu.instruction
    case None => Ok(s)
    case Some(ins) => Dispatch(s, ins)
  }

  /** EI goes to its handler. */
  lemma DispatchEnable(s: Machine, ins: Instruction)
    requires ins.kind == EI
    ensures Dispatch(s, ins) == EnableDisable(s, ins)
  {
  }

  /** DI goes to its handler. */
  lemma DispatchDisable(s: Machine, ins: Instruction)
    requires ins.kind == DI
    ensures Dispatch(s, ins) == EnableDisable(s, ins)
  {
  }

  // ---------------------------------------------------------------------
  // Clock bookkeeping
  // ---------------------------------------------------------------------

  /** a cycles and then b more are c = a + b cycles. */
  lemma SpentCompose(s: Machine, s1: Machine, s2: Machine, a: nat, b: nat, c: nat)
    requires CpuFetch.Spent(s, s1, a) && CpuFetch.Spent(s1, s2, b) && c == a + b
    ensures CpuFetch.Spent(s, s2, c)
  {
    var n := Emu.Ticks(a);
    var k := Emu.Ticks(b);
    assert n + k == Emu.Ticks(c);
    Emu.ClockCompose(s.cycles, a, b);
    Timer.RunSplit(s.mem.timer, n, k);
    Emu.RequestIfTwice(s.mem.intFlags, Timer.Run(s.mem.timer, n).interrupt, Timer.Run(s1.mem.timer, k).interrupt);
    Dma.AfterSplit(s.mem.dma, a, b);
  }

  /** Spending is about memory, clock and debug buffer only: a CPU change after it does not matter. */
  lemma SpentSame(s: Machine, s1: Machine, r: Machine, n: nat)
    requires CpuFetch.Spent(s, s1, n) && r.mem == s1.mem && r.cycles == s1.cycles && r.debug == s1.debug
    ensures CpuFetch.Spent(s, r, n)
  {
  }

  /** Spending is about the clock, not RAM: the same holds with both RAMs replaced. */
  lemma SpentRam(s: Machine, s1: Machine, r: Machine, n: nat, ram: Ram.Ram)
    requires CpuFetch.Spent(s, s1, n) && r.mem == s1.mem.(ram := ram) && r.cycles == s1.cycles && r.debug == s1.debug
    ensures CpuFetch.Spent(s.(mem := s.mem.(ram := ram)), r, n)
  {
  }

  /** A cycle that does not fault, as the handlers use it: n cycles spent, the CPU untouched. */
  lemma Cycled(s: Machine, n: u8)
    requires Emu.Cycle(s, n).Ok?
    ensures CpuFetch.Spent(s, Emu.Cycle(s, n).value, n) && Emu.Cycle(s, n).value.cpu == s.cpu
    ensures Emu.Cycle(s, n).value.mem.ram == s.mem.ram
  {
    CpuFetch.CycleSpends(s, n);
  }

  /** The part of Cycled that concerns the CPU and RAM: neither changes. */
  lemma CycleKeeps(s: Machine, n: u8)
    requires Emu.Cycle(s, n).Ok?
    ensures Emu.Cycle(s, n).value.cpu == s.cpu && Emu.Cycle(s, n).value.mem.ram == s.mem.ram
  {
    Cycled(s, n);
  }

  /** The wrapped differences SUB computes keep the low byte of the exact one. */
  lemma ModMod(x: int)
    ensures Wrap32(x) % 0x1_0000 == Wrap16(x) && Wrap16(x) % 0x100 == x % 0x100 && Wrap32(x) % 0x100 == x % 0x100
  {
    var w := Wrap32(x);
    var q := x / 0x1_0000_0000;
    assert x == q * 0x1_0000_0000 + w;
    DivUnique(x, 0x1_0000, q * 0x1_0000 + w / 0x1_0000, w % 0x1_0000);
    var v := Wrap16(x);
    DivUnique(x, 0x100, (x / 0x1_0000) * 0x100 + v / 0x100, v % 0x100);
    DivUnique(x, 0x100, q * 0x100_0000 + w / 0x100, w % 0x100);
  }

  /** A byte result stored in A with Z from it, N as asked and H and C from the two tests. */
  lemma ByteResult(rf: RegisterFile, v: u16, n: i8, h: bool, c: bool)
    ensures var r := rf.Write(A, v).SetFlags(Flag(v % 0x100 == 0), n, Flag(h), Flag(c));
      && r == rf.(a := r.a, f := r.f) && r.a == v % 0x100
      && (r.GetZeroFlag() == 1 <==> r.a == 0) && r.GetSubtractionFlag() == Expected(rf.GetSubtractionFlag(), n)
      && (r.GetHalfCarryFlag() == 1 <==> h) && (r.GetCarryFlag() == 1 <==> c)
      && r.f % 0x10 == rf.f % 0x10
  {
    SetFlagsTriState(rf.Write(A, v), Flag(v % 0x100 == 0), n, Flag(h), Flag(c));
  }

  // ---------------------------------------------------------------------
  // Arithmetic
  // ---------------------------------------------------------------------

  /**
   * Byte ADD and ADC on A: A and C together hold the exact sum, Z is set
   * iff A became 0, N is cleared, H is the carry out of the low nibble,
   * and no register but A and F changes (nor the low nibble of F).
   */
  lemma AddRegsOnA(rf: RegisterFile, y: u16, carry: nat)
    requires y < 0x100 && carry <= 1
    ensures var x := rf.a; var r := AddRegs(rf, A, y, carry);
      && r == rf.(a := r.a, f := r.f)
      && x + y + carry == r.a + 0x100 * r.GetCarryFlag()
      && (r.GetZeroFlag() == 1 <==> r.a == 0) && r.GetSubtractionFlag() == 0
      && (r.GetHalfCarryFlag() == 1 <==> x % 0x10 + y % 0x10 + carry > 0xF)
      && r.f % 0x10 == rf.f % 0x10
  {
    var x := rf.a;
    var v := Wrap16(x + y + carry);
    var r := AddRegs(rf, A, y, carry);
    assert x + y + carry == r.a + 0x100 * r.GetCarryFlag() by {
      ByteResult(rf, v, 0, HalfCarry(x, y, carry), Carry(x, y, carry));
      ModMod(x + y + carry);
      AddExact(x, y, carry);
    }
    ByteResult(rf, v, 0, HalfCarry(x, y, carry), Carry(x, y, carry));
  }

  /**
   * Byte SUB and SBC on A: A less 0x100 times C is the exact difference,
   * Z is set iff A became 0, N is set, H is the borrow of the low nibble.
   */
  lemma SubRegsOnA(rf: RegisterFile, y: u16)
    requires y < 0x100
    ensures var x := rf.a; var r := SubRegs(rf, A, y, 0);
      && r == rf.(a := r.a, f := r.f)
      && x - y == r.a - 0x100 * r.GetCarryFlag()
      && (r.GetZeroFlag() == 1 <==> r.a == 0) && r.GetSubtractionFlag() == 1
      && (r.GetHalfCarryFlag() == 1 <==> x % 0x10 < y % 0x10)
      && r.f % 0x10 == rf.f % 0x10
  {
    var x := rf.a;
    ModMod(x - y);
    var v := Wrap16(x - y);
    var r := SubRegs(rf, A, y, 0);
    assert r == rf.Write(A, v).SetFlags(Flag(v % 0x100 == 0), 1, Flag(HalfBorrow(x, y, 0)), Flag(Borrow(x, y, 0)));
    assert x - y == r.a - 0x100 * r.GetCarryFlag() by {
      ByteResult(rf, v, 1, HalfBorrow(x, y, 0), Borrow(x, y, 0));
      SubExact(x, y, 0);
    }
    ByteResult(rf, v, 1, HalfBorrow(x, y, 0), Borrow(x, y, 0));
  }

  /** SBC on A: as SUB, with the carry flag subtracted from the difference and from the nibble difference. */
  lemma SbcRegsOnA(rf: RegisterFile, y: u16)
    requires y < 0x100
    ensures var x := rf.a; var c := rf.GetCarryFlag(); var r := SbcRegs(rf, A, y);
      && r == rf.(a := r.a, f := r.f)
      && x - y - c == r.a - 0x100 * r.GetCarryFlag()
      && (r.GetZeroFlag() == 1 <==> r.a == 0) && r.GetSubtractionFlag() == 1
      && (r.GetHalfCarryFlag() == 1 <==> x % 0x10 < y % 0x10 + c)
      && r.f % 0x10 == rf.f % 0x10
  {
    var x := rf.a;
    var c := rf.GetCarryFlag();
    var v := Wrap16(x - y - c);
    var r := SbcRegs(rf, A, y);
    assert x - y - c == r.a - 0x100 * r.GetCarryFlag() by {
      ByteResult(rf, v, 1, HalfBorrow(x, y, c), Borrow(x, y, c));
      ModMod(x - y - c);
      SubExact(x, y, c);
    }
    ByteResult(rf, v, 1, HalfBorrow(x, y, c), Borrow(x, y, c));
  }

  /**
   * CP on a byte changes only F: Z iff A equals the operand, N set, H the
   * nibble borrow, C iff A is below the operand; and those are the flags
   * SUB sets, without SUB's store to A.
   */
  lemma CompareRegsOnByte(rf: RegisterFile, y: u16)
    requires y < 0x100
    ensures var x := rf.a; var r := CompareRegs(rf, y);
      && r == rf.(f := r.f)
      && (r.GetZeroFlag() == 1 <==> x == y) && r.GetSubtractionFlag() == 1
      && (r.GetHalfCarryFlag() == 1 <==> x % 0x10 < y % 0x10)
      && (r.GetCarryFlag() == 1 <==> x < y)
      && r.f == SubRegs(rf, A, y, 0).f
  {
    var x := rf.a;
    SmallToI16(y);
    SmallToI16(x - y);
    var z := Flag(x - y == 0);
    var h := Flag(x % 0x10 - y % 0x10 < 0);
    var c := Flag(x - y < 0);
    var r := CompareRegs(rf, y);
    assert r == rf.SetFlags(z, 1, h, c);
    SetFlagsTriState(rf, z, 1, h, c);
    var w := Wrap32(x - y);
    ModMod(x - y);
    ByteCompare(x, y);
    assert rf.Write(A, w % 0x1_0000).f == rf.f;
  }

  /** The tests SUB makes on a byte difference, read as comparisons. */
  lemma ByteCompare(x: u8, y: u8)
    ensures (Wrap32(x - y) % 0x100 == 0) == (x == y)
    ensures HalfBorrow(x, y, 0) == (x % 0x10 - y % 0x10 < 0)
    ensures Borrow(x, y, 0) == (x - y < 0)
  {
    ModMod(x - y);
    if x < y {
      assert (x - y) % 0x100 == x - y + 0x100;
    }
  }

  /** The cast to i16 of a value that fits leaves it as it is. */
  lemma SmallToI16(x: int)
    requires -0x8000 <= x < 0x8000
    ensures ToI16(x) == x
  {
  }

  /** ADD A,r8: the register effect above, in one machine cycle with the CPU otherwise untouched. */
  lemma AddByte(s: Machine, ins: Instruction)
    requires ins.reg1 == A && s.cpu.fetched < 0x100 && Add(s, ins).Ok?
    ensures var r := Add(s, ins).value;
      CpuFetch.Spent(s, r, 1) && r.cpu == s.cpu.(regs := AddRegs(s.cpu.regs, A, s.cpu.fetched, 0))
  {
    Cycled(s, 1);
    var s1 := Emu.Cycle(s, 1).value;
    assert !IsWordSize(A);
    var r := WithRegs(s1, AddRegs(s1.cpu.regs, A, s1.cpu.fetched, 0));
    assert Add(s, ins) == Ok(r);
    assert r.mem == s1.mem && r.cycles == s1.cycles && r.debug == s1.debug;
    assert CpuFetch.Spent(s, r, 1);
  }

  /** ADC A,r8: the register effect above with the carry flag as the carry in, in one machine cycle. */
  lemma AdcByte(s: Machine, ins: Instruction)
    requires ins.reg1 == A && Adc(s, ins).Ok?
    ensures var r := Adc(s, ins).value;
      CpuFetch.Spent(s, r, 1) && r.cpu == s.cpu.(regs := AddRegs(s.cpu.regs, A, s.cpu.fetched, s.cpu.regs.GetCarryFlag()))
  {
    Cycled(s, 1);
  }

  /** The register file after the HL step of the (HL+) and (HL-) forms of LD. */
  function HLStep(rf: RegisterFile, mode: AddrMode): RegisterFile
  {
    if mode == R_HLI || mode == HLI_R then rf.Increment(HL)
    else if mode == R_HLD || mode == HLD_R then rf.Decrement(HL)
    else rf
  }

  /**
   * LD into a register: one cycle, HL stepped for the (HL+) and (HL-)
   * forms, then the operand written to the destination register, which
   * reads it back masked to its width.
   */
  lemma LoadRegister(s: Machine, ins: Instruction)
    requires !s.cpu.destIsMem && ins.mode != HL_SPD && ins.reg1 != NONE && Load(s, ins).Ok?
    ensures var r := Load(s, ins).value; var d := s.cpu.fetched;
      && CpuFetch.Spent(s, r, 1)
      && r.cpu == s.cpu.(regs := HLStep(s.cpu.regs, ins.mode).Write(ins.reg1, d))
      && r.cpu.regs.Read(ins.reg1) == if IsWordSize(ins.reg1) then d else d % 0x100
  {
    Cycled(s, 1);
    var s1 := Emu.Cycle(s, 1).value;
    var rf1 := HLStep(s.cpu.regs, ins.mode);
    assert Load(s, ins) == Ok(WithRegs(s1, rf1.Write(ins.reg1, s.cpu.fetched)));
    ReadAfterWrite(rf1, ins.reg1, s.cpu.fetched);
  }

  /**
   * LD of a byte register into memory: HL stepped for the (HL+) and (HL-)
   * forms, two cycles, then the operand's low byte written through the bus
   * at the latched destination.
   */
  lemma LoadToMemory(s: Machine, ins: Instruction)
    requires s.cpu.destIsMem && !IsWordSize(ins.reg2) && Load(s, ins).Ok?
    ensures Emu.Cycle(s, 2).Ok?
    ensures var s2 := Emu.Cycle(s, 2).value; var r := Load(s, ins).value;
      && CpuFetch.Spent(s, s2, 2)
      && Bus.WriteByte(s2.mem, s.cpu.memDest, Lo(s.cpu.fetched)).Ok?
      && r.mem == Bus.WriteByte(s2.mem, s.cpu.memDest, Lo(s.cpu.fetched)).value
      && r.cpu == s.cpu.(regs := HLStep(s.cpu.regs, ins.mode)) && r.cycles == s2.cycles
  {
    CycleKeeps(s, 1);
    var s1 := Emu.Cycle(s, 1).value;
    var s1' := WithRegs(s1, HLStep(s.cpu.regs, ins.mode));
    assert Emu.Cycle(s1', 1).Ok?;
    var s2' := Emu.Cycle(s1', 1).value;
    assert Load(s, ins) == WriteMem(s2', s.cpu.memDest, Lo(s.cpu.fetched)) by {
      CycleKeeps(s1', 1);
    }
    assert Emu.Cycle(s, 2) == Ok(s2'.(cpu := s.cpu)) by {
      Emu.CycleStep(s, 1);
    }
    Cycled(s, 2);
  }

  /**
   * INC and DEC on a byte register: the operand plus or minus one modulo
   * 0x100, Z iff that is 0, N clear for INC and set for DEC, H when the low
   * nibble overflowed (INC from 0xF) or borrowed (DEC from 0), C kept; no
   * register but the target and F changes, nor the low nibble of F. One cycle.
   */
  lemma IncDecByte(s: Machine, ins: Instruction, inc: bool)
    requires !IsWordSize(ins.reg1) && ins.reg1 !in {NONE, F} && !s.cpu.destIsMem
    requires (if inc then Inc(s, ins) else Dec(s, ins)).Ok?
    ensures var r := (if inc then Inc(s, ins) else Dec(s, ins)).value;
      var d := s.cpu.fetched; var rf := r.cpu.regs; var old_ := s.cpu.regs;
      && CpuFetch.Spent(s, r, 1) && r.cpu == s.cpu.(regs := rf)
      && rf.Read(ins.reg1) == (if inc then d + 1 else d - 1) % 0x100
      && (rf.GetZeroFlag() == 1 <==> rf.Read(ins.reg1) == 0)
      && rf.GetSubtractionFlag() == (if inc then 0 else 1)
      && (rf.GetHalfCarryFlag() == 1 <==> d % 0x10 == (if inc then 0xF else 0))
      && rf.GetCarryFlag() == old_.GetCarryFlag()
      && rf == old_.Write(ins.reg1, rf.Read(ins.reg1)).(f := rf.f) && rf.f % 0x10 == old_.f % 0x10
  {
    IncDecByteMachine(s, ins, inc);
    var s1 := Emu.Cycle(s, 1).value;
    Cycled(s, 1);
    SpentSame(s, s1, (if inc then Inc(s, ins) else Dec(s, ins)).value, 1);
    IncDecRegsEffect(s.cpu.regs, ins.reg1, s.cpu.fetched, inc);
  }

  /** The machine side of IncDecByte: a cycle, then the registers become IncDecRegs. */
  lemma IncDecByteMachine(s: Machine, ins: Instruction, inc: bool)
    requires !IsWordSize(ins.reg1) && !s.cpu.destIsMem
    requires (if inc then Inc(s, ins) else Dec(s, ins)).Ok?
    ensures Emu.Cycle(s, 1).Ok?
    ensures (if inc then Inc(s, ins) else Dec(s, ins))
      == Ok(WithRegs(Emu.Cycle(s, 1).value, IncDecRegs(s.cpu.regs, ins.reg1, s.cpu.fetched, inc)))
  {
    var d: int := s.cpu.fetched;
    var v := Wrap16(if inc then d + 1 else d - 1);
    var h := if inc then d % 0x10 + 1 > 0xF else d % 0x10 - 1 < 0;
    var n: i8 := if inc then 0 else 1;
    IncDecUnfold(s, ins, inc);
    CycleKeeps(s, 1);
    StoreByteRegister(Emu.Cycle(s, 1).value, ins, v, n, h);
  }

  /** The registers after INC or DEC of the operand d into the byte register t. */
  function IncDecRegs(rf: RegisterFile, t: RegisterType, d: u16, inc: bool): RegisterFile
  {
    var v := Wrap16(if inc then d + 1 else d - 1);
    var h := if inc then d % 0x10 + 1 > 0xF else d % 0x10 - 1 < 0;
    rf.Write(t, v).SetFlags(Flag(v % 0x100 == 0), if inc then 0 else 1, Flag(h), Keep)
  }

  /** The register side of IncDecByte. */
  lemma IncDecRegsEffect(old_: RegisterFile, t: RegisterType, d: u16, inc: bool)
    requires !IsWordSize(t) && t !in {NONE, F}
    ensures var rf := IncDecRegs(old_, t, d, inc);
      && rf.Read(t) == (if inc then d + 1 else d - 1) % 0x100
      && (rf.GetZeroFlag() == 1 <==> rf.Read(t) == 0)
      && rf.GetSubtractionFlag() == (if inc then 0 else 1)
      && (rf.GetHalfCarryFlag() == 1 <==> d % 0x10 == (if inc then 0xF else 0))
      && rf.GetCarryFlag() == old_.GetCarryFlag()
      && rf == old_.Write(t, rf.Read(t)).(f := rf.f) && rf.f % 0x10 == old_.f % 0x10
  {
    var x: int := if inc then d + 1 else d - 1;
    var v := Wrap16(x);
    var h := if inc then d % 0x10 + 1 > 0xF else d % 0x10 - 1 < 0;
    var w := old_.Write(t, v);
    assert w.f == old_.f;
    ReadAfterWrite(old_, t, v);
    SetFlagsTriState(w, Flag(v % 0x100 == 0), if inc then 0 else 1, Flag(h), Keep);
    ModMod(x);
    var rf := IncDecRegs(old_, t, d, inc);
    assert rf == old_.Write(t, rf.Read(t)).(f := rf.f) by {
      assert rf.Read(t) == w.Read(t);
      WriteReadBack(old_, t, v);
    }
  }

  /** INC and DEC are a cycle and then the shared tail, with the value and the H test of each. */
  lemma IncDecUnfold(s: Machine, ins: Instruction, inc: bool)
    requires (if inc then Inc(s, ins) else Dec(s, ins)).Ok?
    ensures Emu.Cycle(s, 1).Ok?
    ensures var d: int := s.cpu.fetched;
      (if inc then Inc(s, ins) else Dec(s, ins))
      == IncDecStore(Emu.Cycle(s, 1).value, ins, Wrap16(if inc then d + 1 else d - 1), if inc then 0 else 1,
                     if inc then d % 0x10 + 1 > 0xF else d % 0x10 - 1 < 0)
  {
    IncDecBody(s, ins, inc);
    CycleKeeps(s, 1);
  }

  /** INC and DEC as written: a cycle, then the shared tail on the operand of the machine after it. */
  lemma IncDecBody(s: Machine, ins: Instruction, inc: bool)
    ensures (if inc then Inc(s, ins) else Dec(s, ins))
      == (var s1 :- Emu.Cycle(s, 1);
          var d: int := s1.cpu.fetched;
          IncDecStore(s1, ins, Wrap16(if inc then d + 1 else d - 1), if inc then 0 else 1,
                      if inc then d % 0x10 + 1 > 0xF else d % 0x10 - 1 < 0))
  {
    if inc {
      assert Inc(s, ins) == (var s1 :- Emu.Cycle(s, 1); IncDecStore(s1, ins, Wrap16(s1.cpu.fetched + 1), 0, s1.cpu.fetched % 0x10 + 1 > 0xF));
    } else {
      assert Dec(s, ins) == (var s1 :- Emu.Cycle(s, 1); IncDecStore(s1, ins, Wrap16(s1.cpu.fetched - 1), 1, s1.cpu.fetched % 0x10 - 1 < 0));
    }
  }

  /** The register form of the INC and DEC tail on a byte register: the value stored, then the flags. */
  lemma StoreByteRegister(s: Machine, ins: Instruction, v: u16, n: i8, h: bool)
    requires !IsWordSize(ins.reg1) && !s.cpu.destIsMem
    ensures IncDecStore(s, ins, v, n, h) == Ok(WithRegs(s, s.cpu.regs.Write(ins.reg1, v).SetFlags(Flag(v % 0x100 == 0), n, Flag(h), Keep)))
  {
  }

  /**
   * INC and DEC on a 16-bit register: the operand plus or minus one modulo
   * 0x10000, no flag changed and no other register either. Two cycles.
   */
  lemma IncDecWord(s: Machine, ins: Instruction, inc: bool)
    requires IsWordSize(ins.reg1) && ins.reg1 != AF && ins.mode != MR && !s.cpu.destIsMem
    requires (if inc then Inc(s, ins) else Dec(s, ins)).Ok?
    ensures var r := (if inc then Inc(s, ins) else Dec(s, ins)).value;
      var d := s.cpu.fetched; var rf := r.cpu.regs;
      && CpuFetch.Spent(s, r, 2) && r.cpu == s.cpu.(regs := rf)
      && rf.Read(ins.reg1) == (if inc then d + 1 else d - 1) % 0x1_0000
      && rf == s.cpu.regs.Write(ins.reg1, rf.Read(ins.reg1)) && rf.f == s.cpu.regs.f
  {
    var d: int := s.cpu.fetched;
    var v := Wrap16(if inc then d + 1 else d - 1);
    IncDecWordMachine(s, ins, inc);
    var s1 := Emu.Cycle(s, 1).value;
    var s2 := Emu.Cycle(s1, 1).value;
    assert CpuFetch.Spent(s, s2, 2) by {
      Cycled(s, 1);
      Cycled(s1, 1);
      SpentCompose(s, s1, s2, 1, 1, 2);
    }
    SpentSame(s, s2, (if inc then Inc(s, ins) else Dec(s, ins)).value, 2);
    ReadAfterWrite(s.cpu.regs, ins.reg1, v);
  }

  /** The machine side of IncDecWord: two cycles, then the value written to the register. */
  lemma IncDecWordMachine(s: Machine, ins: Instruction, inc: bool)
    requires IsWordSize(ins.reg1) && ins.mode != MR && !s.cpu.destIsMem
    requires (if inc then Inc(s, ins) else Dec(s, ins)).Ok?
    ensures Emu.Cycle(s, 1).Ok? && Emu.Cycle(Emu.Cycle(s, 1).value, 1).Ok?
    ensures var d: int := s.cpu.fetched;
      (if inc then Inc(s, ins) else Dec(s, ins))
      == Ok(WithRegs(Emu.Cycle(Emu.Cycle(s, 1).value, 1).value, s.cpu.regs.Write(ins.reg1, Wrap16(if inc then d + 1 else d - 1))))
  {
    var d: int := s.cpu.fetched;
    var v := Wrap16(if inc then d + 1 else d - 1);
    var h := if inc then d % 0x10 + 1 > 0xF else d % 0x10 - 1 < 0;
    IncDecUnfold(s, ins, inc);
    CycleKeeps(s, 1);
    StoreWordRegister(Emu.Cycle(s, 1).value, ins, v, if inc then 0 else 1, h);
  }

  /** The register form of the INC and DEC tail on a 16-bit register: a cycle, then the value stored. */
  lemma StoreWordRegister(s: Machine, ins: Instruction, v: u16, n: i8, h: bool)
    requires IsWordSize(ins.reg1) && ins.mode != MR && !s.cpu.destIsMem && IncDecStore(s, ins, v, n, h).Ok?
    ensures Emu.Cycle(s, 1).Ok?
    ensures IncDecStore(s, ins, v, n, h) == Ok(WithRegs(Emu.Cycle(s, 1).value, s.cpu.regs.Write(ins.reg1, v)))
  {
    CycleKeeps(s, 1);
  }

  /** ADD HL,rr: the register effect AddWordRegs, in two machine cycles with the CPU otherwise untouched. */
  lemma AddToHL(s: Machine, ins: Instruction)
    requires ins.reg1 == HL && Add(s, ins).Ok?
    ensures var r := Add(s, ins).value;
      CpuFetch.Spent(s, r, 2) && r.cpu == s.cpu.(regs := AddWordRegs(s.cpu.regs, HL, s.cpu.fetched))
  {
    CycleKeeps(s, 1);
    var s1 := Emu.Cycle(s, 1).value;
    assert IsWordSize(HL) && HL != SP;
    assert Emu.Cycle(s1, 1).Ok?;
    var s2 := Emu.Cycle(s1, 1).value;
    assert Add(s, ins) == Ok(WithRegs(s2, AddWordRegs(s.cpu.regs, HL, s.cpu.fetched))) by {
      CycleKeeps(s1, 1);
    }
    assert CpuFetch.Spent(s, s2, 2) by {
      Cycled(s, 1);
      Cycled(s1, 1);
      SpentCompose(s, s1, s2, 1, 1, 2);
    }
  }

  /**
   * The register side of ADD HL,rr: HL holds the sum modulo 0x10000 and C
   * says whether it overflowed 16 bits, Z is kept, N is cleared, H is the carry out of bit 11; no
   * register but H, L and F changes, nor the low nibble of F.
   */
  lemma AddWordRegsOnHL(rf: RegisterFile, d: u16)
    ensures var x := rf.Read(HL); var r := AddWordRegs(rf, HL, d);
      && r.Read(HL) == (x + d) % 0x1_0000 && (r.GetCarryFlag() == 1 <==> x + d > 0xFFFF)
      && r.GetZeroFlag() == rf.GetZeroFlag() && r.GetSubtractionFlag() == 0
      && (r.GetHalfCarryFlag() == 1 <==> x % 0x1000 + d % 0x1000 > 0xFFF)
      && r == rf.(h := r.h, l := r.l, f := r.f) && r.f % 0x10 == rf.f % 0x10
  {
    var x := rf.Read(HL);
    var v := Wrap16(x + d);
    var w := rf.Write(HL, v);
    var h, c := Flag(x % 0x1000 + d % 0x1000 > 0xFFF), Flag(x + d > 0xFFFF);
    var r := AddWordRegs(rf, HL, d);
    assert r == w.SetFlags(Keep, 0, h, c);
    assert r.GetZeroFlag() == rf.GetZeroFlag() && r.GetSubtractionFlag() == 0
      && (r.GetHalfCarryFlag() == 1 <==> x % 0x1000 + d % 0x1000 > 0xFFF)
      && (r.GetCarryFlag() == 1 <==> x + d > 0xFFFF)
      && r == w.(f := r.f) && r.f % 0x10 == rf.f % 0x10 by {
      SetFlagsTriState(w, Keep, 0, h, c);
    }
    assert r.Read(HL) == v by {
      ReadAfterWrite(rf, HL, v);
    }
  }

  /** ADD SP,e: the register effect AddSPRegs, in three machine cycles with the CPU otherwise untouched. */
  lemma AddToSP(s: Machine, ins: Instruction)
    requires ins.reg1 == SP && Add(s, ins).Ok?
    ensures var r := Add(s, ins).value;
      CpuFetch.Spent(s, r, 3) && r.cpu == s.cpu.(regs := AddSPRegs(s.cpu.regs, s.cpu.fetched))
  {
    CycleKeeps(s, 1);
    var s1 := Emu.Cycle(s, 1).value;
    assert IsWordSize(SP);
    assert Emu.Cycle(s1, 1).Ok?;
    var s2 := Emu.Cycle(s1, 1).value;
    assert Emu.Cycle(s2, 1).Ok?;
    var s3 := Emu.Cycle(s2, 1).value;
    assert Add(s, ins) == Ok(WithRegs(s3, AddSPRegs(s.cpu.regs, s.cpu.fetched))) by {
      CycleKeeps(s1, 1);
      CycleKeeps(s2, 1);
    }
    assert CpuFetch.Spent(s, s3, 3) by {
      Cycled(s, 1);
      Cycled(s1, 1);
      Cycled(s2, 1);
      SpentCompose(s, s1, s2, 1, 1, 2);
      SpentCompose(s, s2, s3, 2, 1, 3);
    }
  }

  /**
   * The register side of ADD SP,e: SP moves by the signed byte, wrapping at
   * 16 bits; Z and N are cleared, H and C are the carries of the unsigned
   * low nibble and low byte; no register but SP and F changes.
   */
  lemma AddSPRegsEffect(rf: RegisterFile, d: u16)
    requires d < 0x100
    ensures var x := rf.sp; var r := AddSPRegs(rf, d);
      && r.sp == (x + ToI8(d)) % 0x1_0000
      && r.GetZeroFlag() == 0 && r.GetSubtractionFlag() == 0
      && (r.GetHalfCarryFlag() == 1 <==> x % 0x10 + d % 0x10 > 0xF)
      && (r.GetCarryFlag() == 1 <==> x % 0x100 + d > 0xFF)
      && r == rf.(sp := r.sp, f := r.f) && r.f % 0x10 == rf.f % 0x10
  {
    var x := rf.sp;
    var w := rf.Write(SP, Wrap16(x + ToI8(Lo(d))));
    SetFlagsTriState(w, 0, 0, Flag(HalfCarry(x, d, 0)), Flag(Carry(x, d, 0)));
  }

  // ---------------------------------------------------------------------
  // Logic, complement, carry flag, decimal adjust, rotations of A
  // ---------------------------------------------------------------------

  /** The bit operation of a logic instruction type. */
  function LogicOp(kind: InstrType): BitOp
    requires kind in {AND, OR, XOR}
  {
    if kind == AND then AndOp else if kind == OR then OrOp else XorOp
  }

  /**
   * AND, OR and XOR spend one cycle and fail for no other reason; the new
   * registers are the logic register effect of the bitwise result. Any
   * other type reaching the handler is the InvalidLogicOp fault.
   */
  lemma LogicStep(s: Machine, ins: Instruction)
    requires Emu.Cycle(s, 1).Ok?
    ensures ins.kind !in {AND, OR, XOR} ==> Logic(s, ins) == Fail(InvalidLogicOp)
    ensures ins.kind in {AND, OR, XOR} ==>
      && Logic(s, ins).Ok? && CpuFetch.Spent(s, Logic(s, ins).value, 1)
      && Logic(s, ins).value.cpu == s.cpu.(regs := LogicRegs(s.cpu.regs, Bitwise(LogicOp(ins.kind), s.cpu.regs.a, s.cpu.fetched % 0x100, 8), ins.kind == AND))
  {
    Cycled(s, 1);
  }

  /**
   * Every bit of the new A is the operation on that bit of A and of the
   * operand; Z is set iff A became 0, H only for AND, N and C cleared, and
   * no register but A and F changes.
   */
  lemma LogicEffect(rf: RegisterFile, kind: InstrType, d: u8)
    requires kind in {AND, OR, XOR}
    ensures var r := LogicRegs(rf, Bitwise(LogicOp(kind), rf.a, d, 8), kind == AND);
      && r == rf.(a := r.a, f := r.f)
      && (forall k | 0 <= k < 8 :: Bit(r.a, k) == ApplyBit(LogicOp(kind), Bit(rf.a, k), Bit(d, k)))
      && (r.GetZeroFlag() == 1 <==> r.a == 0) && r.GetSubtractionFlag() == 0
      && (r.GetHalfCarryFlag() == 1 <==> kind == AND) && r.GetCarryFlag() == 0
  {
    LogicBits(LogicOp(kind), rf.a, d);
    LogicRegsEffect(rf, Bitwise(LogicOp(kind), rf.a, d, 8), kind == AND);
  }

  /** Each bit of a byte-wide bitwise operation is the operation on the two operands' bits. */
  lemma LogicBits(op: BitOp, x: u8, y: u8)
    ensures forall k | 0 <= k < 8 :: Bit(Bitwise(op, x, y, 8), k) == ApplyBit(op, Bit(x, k), Bit(y, k))
  {
    forall k | 0 <= k < 8
      ensures Bit(Bitwise(op, x, y, 8), k) == ApplyBit(op, Bit(x, k), Bit(y, k))
    {
      BitwiseBit(op, x, y, 8, k);
    }
  }

  /** The register side of a logic operation: A and F written, Z from the result, N and C cleared. */
  lemma LogicRegsEffect(rf: RegisterFile, result: u8, half: bool)
    ensures var r := LogicRegs(rf, result, half);
      && r == rf.(a := result, f := r.f)
      && (r.GetZeroFlag() == 1 <==> result == 0) && r.GetSubtractionFlag() == 0
      && (r.GetHalfCarryFlag() == 1 <==> half) && r.GetCarryFlag() == 0
  {
    SetFlagsTriState(rf.Write(A, result), Flag(result == 0), 0, Flag(half), 0);
  }

  /** XOR A with itself clears A and sets Z: the usual way to zero A. */
  lemma XorSelfClears(rf: RegisterFile)
    ensures var r := LogicRegs(rf, Bitwise(XorOp, rf.a, rf.a, 8), false);
      r.a == 0 && r.GetZeroFlag() == 1
  {
    XorSelf(rf.a, 8);
    LogicRegsEffect(rf, 0, false);
  }

  /** CPL: A becomes 0xFF - A, bit by bit its complement; N and H set, Z and C kept, nothing else changes. */
  lemma ComplementEffect(rf: RegisterFile)
    ensures var r := ComplementRegs(rf);
      && r == rf.(a := r.a, f := r.f) && r.a == 0xFF - rf.a
      && r.GetZeroFlag() == rf.GetZeroFlag() && r.GetSubtractionFlag() == 1
      && r.GetHalfCarryFlag() == 1 && r.GetCarryFlag() == rf.GetCarryFlag()
      && r.f % 0x10 == rf.f % 0x10
  {
    var v := Wrap16(-(rf.a + 1));
    DivUnique(-(rf.a + 1), 0x1_0000, -1, 0xFFFF - rf.a);
    SetFlagsTriState(rf.Write(A, v), Keep, 1, 1, Keep);
  }

  /** CPL twice gives A back. */
  lemma ComplementTwice(rf: RegisterFile)
    ensures ComplementRegs(ComplementRegs(rf)).a == rf.a
  {
    ComplementEffect(rf);
    ComplementEffect(ComplementRegs(rf));
  }

  /** SCF sets C, CCF complements it; both clear N and H and keep Z; no register but F changes. */
  lemma CarryFlagEffect(rf: RegisterFile, setCarry: bool)
    ensures var r := CarryFlagRegs(rf, setCarry);
      && r == rf.(f := r.f)
      && r.GetCarryFlag() == (if setCarry then 1 else 1 - rf.GetCarryFlag())
      && r.GetZeroFlag() == rf.GetZeroFlag() && r.GetSubtractionFlag() == 0 && r.GetHalfCarryFlag() == 0
      && r.f % 0x10 == rf.f % 0x10
  {
    SetFlagsTriState(rf, Keep, 0, 0, if setCarry then 1 else Flag(rf.GetCarryFlag() == 0));
  }

  /** CCF twice gives C back. */
  lemma ComplementCarryTwice(rf: RegisterFile)
    ensures CarryFlagRegs(CarryFlagRegs(rf, false), false).GetCarryFlag() == rf.GetCarryFlag()
  {
    CarryFlagEffect(rf, false);
    CarryFlagEffect(CarryFlagRegs(rf, false), false);
  }

  /** A rotation of A stores the rotated byte, clears Z, N and H, and puts the bit shifted out in C. */
  lemma RotateRegsEffect(rf: RegisterFile, r: Shifted)
    requires r.bit <= 1
    ensures var x := RotateRegs(rf, r);
      && x == rf.(a := r.value, f := x.f) && x.GetCarryFlag() == r.bit
      && x.GetZeroFlag() == 0 && x.GetSubtractionFlag() == 0 && x.GetHalfCarryFlag() == 0
  {
    SetFlagsTriState(rf.Write(A, r.value), 0, 0, 0, Flag(r.bit != 0));
  }

  /** RRCA undoes RLCA, and RLCA undoes RRCA: A comes back. */
  lemma RotateCircularRoundTrip(rf: RegisterFile)
    ensures RotateRegs(RotateRegs(rf, Rlc(rf.a)), Rrc(RotateRegs(rf, Rlc(rf.a)).a)).a == rf.a
    ensures RotateRegs(RotateRegs(rf, Rrc(rf.a)), Rlc(RotateRegs(rf, Rrc(rf.a)).a)).a == rf.a
  {
    var r1 := RotateRegs(rf, Rlc(rf.a));
    var r1' := RotateRegs(rf, Rrc(rf.a));
    RotateRegsEffect(rf, Rlc(rf.a));
    RotateRegsEffect(rf, Rrc(rf.a));
    RotateInverse(rf.a);
    RotateRegsEffect(r1, Rrc(r1.a));
    RotateRegsEffect(r1', Rlc(r1'.a));
  }

  /** RRA undoes RLA, and RLA undoes RRA: A and C come back. */
  lemma RotateThroughCarryRoundTrip(rf: RegisterFile)
    ensures var r1 := RotateRegs(rf, Rl(rf.a, rf.GetCarryFlag()));
      var r2 := RotateRegs(r1, Rr(r1.a, r1.GetCarryFlag()));
      r2.a == rf.a && r2.GetCarryFlag() == rf.GetCarryFlag()
    ensures var r1 := RotateRegs(rf, Rr(rf.a, rf.GetCarryFlag()));
      var r2 := RotateRegs(r1, Rl(r1.a, r1.GetCarryFlag()));
      r2.a == rf.a && r2.GetCarryFlag() == rf.GetCarryFlag()
  {
    var c := rf.GetCarryFlag();
    RotateRegsEffect(rf, Rl(rf.a, c));
    RotateRegsEffect(rf, Rr(rf.a, c));
    var r1 := RotateRegs(rf, Rl(rf.a, c));
    var r1' := RotateRegs(rf, Rr(rf.a, c));
    RotateThroughCarryInverse(rf.a, c);
    RotateRegsEffect(r1, Rr(r1.a, r1.GetCarryFlag()));
    RotateRegsEffect(r1', Rl(r1'.a, r1'.GetCarryFlag()));
  }

  /** The rotation handlers: one cycle, and the register effect of the rotation they name. */
  lemma RotateEffect(s: Machine, ins: Instruction)
    requires Emu.Cycle(s, 1).Ok?
    ensures var rf := s.cpu.regs; var c := rf.GetCarryFlag();
      && Rlca(s).Ok? && CpuFetch.Spent(s, Rlca(s).value, 1) && Rlca(s).value.cpu == s.cpu.(regs := RotateRegs(rf, Rlc(rf.a)))
      && Rrca(s).Ok? && CpuFetch.Spent(s, Rrca(s).value, 1) && Rrca(s).value.cpu == s.cpu.(regs := RotateRegs(rf, Rrc(rf.a)))
      && RotateThroughCarry(s, ins).Ok? && CpuFetch.Spent(s, RotateThroughCarry(s, ins).value, 1)
      && RotateThroughCarry(s, ins).value.cpu == s.cpu.(regs := RotateRegs(rf, if ins.kind == RLA then Rl(rf.a, c) else Rr(rf.a, c)))
  {
    Cycled(s, 1);
  }

  /**
   * CB on a register operand spends two cycles and touches no memory. An
   * opcode that reaches the NO_IMPL default is the InvalidCbOpcode fault;
   * otherwise the registers become CbRegs of the operation on the
   * register's value and the carry flag.
   */
  lemma CbRegister(s: Machine)
    requires Emu.Cycle(s, 2).Ok? && CbOperand(s.cpu.fetched) != HL
    ensures var d := s.cpu.fetched; var rf := s.cpu.regs; var reg := CbOperand(d);
      var e := CbEffectOf(d, Lo(rf.Read(reg)), rf.GetCarryFlag());
      && (e.Fail? ==> Cb(s) == Fail(InvalidCbOpcode(CbOpcode(d))))
      && (e.Ok? ==> Cb(s).Ok? && CpuFetch.Spent(s, Cb(s).value, 2) && Cb(s).value.cpu == s.cpu.(regs := CbRegs(rf, reg, e.value)))
  {
    Cycled(s, 2);
  }

  /**
   * The register side of CB: BIT changes only F, with Z from the test,
   * N = 0, H = 1 and C kept; the others write the new value to the operand
   * register and change no other register but F; RES and SET keep F, the
   * shifts and SWAP set Z from the new value, N = H = 0 and C from the bit
   * shifted out.
   */
  lemma CbRegsEffect(rf: RegisterFile, reg: RegisterType, e: CbEffect)
    requires reg in {A, B, C, D, E, H, L}
    ensures var r := CbRegs(rf, reg, e);
      && (e.Test? ==> r == rf.(f := r.f) && (r.GetZeroFlag() == 1 <==> e.zero) && r.GetSubtractionFlag() == 0
                      && r.GetHalfCarryFlag() == 1 && r.GetCarryFlag() == rf.GetCarryFlag())
      && (e.Store? ==> r.Read(reg) == e.value && r == rf.Write(reg, e.value).(f := r.f))
      && (e.Store? && !e.setsFlags ==> r == rf.Write(reg, e.value))
      && (e.Store? && e.setsFlags ==> (r.GetZeroFlag() == 1 <==> e.zero) && r.GetSubtractionFlag() == 0
                                      && r.GetHalfCarryFlag() == 0 && (r.GetCarryFlag() == 1 <==> e.bit != 0))
  {
    match e
    case Test(zero) =>
      SetFlagsTriState(rf, Flag(zero), 0, 1, Keep);
    case Store(v, setsFlags, zero, bit) =>
      if setsFlags {
        SetFlagsTriState(rf, Flag(zero), 0, 0, Flag(bit != 0));
      }
  }

  /**
   * What BIT, RES and SET on bit k of register `reg` leave in the registers
   * `regs`, starting from `rf`: BIT changes only F, with Z set exactly when
   * the bit is clear, N = 0, H = 1 and C kept; RES and SET change only bit
   * k of the register, to 0 and to 1, and keep F.
   */
  ghost predicate CbBitOutcome(rf: RegisterFile, reg: RegisterType, kind: InstrType, k: nat, regs: RegisterFile)
    requires k < 8
  {
    var v := Lo(rf.Read(reg));
    && (kind == BIT ==> regs == rf.(f := regs.f) && (regs.GetZeroFlag() == 1 <==> Bit(v, k) == 0)
                        && regs.GetSubtractionFlag() == 0 && regs.GetHalfCarryFlag() == 1 && regs.GetCarryFlag() == rf.GetCarryFlag())
    && (kind != BIT ==> regs.f == rf.f && regs == rf.Write(reg, regs.Read(reg))
                        && forall j | 0 <= j < 8 :: Bit(Lo(regs.Read(reg)), j) == if j == k then Flag(kind == SET) as nat else Bit(v, j))
  }

  /**
   * BIT, RES and SET on a register operand, as a whole handler: two cycles,
   * no fault, no memory touched, and the registers as CbBitOutcome says.
   */
  lemma CbBitRegister(s: Machine)
    requires Emu.Cycle(s, 2).Ok? && CbOperand(s.cpu.fetched) != HL
    requires CbKind(s.cpu.fetched) in {Some(BIT), Some(RES), Some(SET)}
    ensures Cb(s).Ok? && CpuFetch.Spent(s, Cb(s).value, 2) && Cb(s).value.cpu == s.cpu.(regs := Cb(s).value.cpu.regs)
    ensures CbBitOutcome(s.cpu.regs, CbOperand(s.cpu.fetched), CbKind(s.cpu.fetched).value, CbBitIndex(s.cpu.fetched), Cb(s).value.cpu.regs)
  {
    CbRegister(s);
    CbBitRegs(s.cpu.regs, s.cpu.fetched);
  }

  /** The register side of BIT, RES and SET on a register operand: no fault, and the outcome CbBitOutcome names. */
  lemma CbBitRegs(rf: RegisterFile, d: u16)
    requires CbOperand(d) != HL && CbKind(d) in {Some(BIT), Some(RES), Some(SET)}
    ensures var reg := CbOperand(d); var e := CbEffectOf(d, Lo(rf.Read(reg)), rf.GetCarryFlag());
      e.Ok? && CbBitOutcome(rf, reg, CbKind(d).value, CbBitIndex(d), CbRegs(rf, reg, e.value))
  {
    var reg := CbOperand(d);
    var kind := CbKind(d).value;
    var k := CbBitIndex(d);
    var v := Lo(rf.Read(reg));
    assert reg in {A, B, C, D, E, H, L};
    var e := CbCompute(kind, v, rf.GetCarryFlag(), k).value;
    assert CbEffectOf(d, v, rf.GetCarryFlag()) == Ok(e);
    CbRegsEffect(rf, reg, e);
    if kind == BIT {
      CbBitTest(v, rf.GetCarryFlag(), k);
    } else {
      CbStoreBits(kind, v, rf.GetCarryFlag(), k);
    }
  }

  /** RES and SET store the operand with bit k replaced, by 0 and by 1, and leave F alone. */
  lemma CbStoreBits(kind: InstrType, v: u8, carry: u8, k: nat)
    requires kind in {RES, SET} && carry <= 1 && k < 8
    ensures var e := CbCompute(kind, v, carry, k).value;
      && e.Store? && !e.setsFlags
      && forall j | 0 <= j < 8 :: Bit(e.value, j) == if j == k then Flag(kind == SET) as nat else Bit(v, j)
  {
    var e := CbCompute(kind, v, carry, k).value;
    forall j | 0 <= j < 8
      ensures Bit(e.value, j) == if j == k then Flag(kind == SET) as nat else Bit(v, j)
    {
      if kind == SET {
        CbSetBit(v, carry, k, j);
      } else {
        CbResetBit(v, carry, k, j);
      }
    }
  }

  /**
   * DAA after a byte ADD of two BCD operands leaves in A the BCD digits of
   * the decimal sum modulo 100, sets C exactly when that sum reached 100,
   * sets Z iff A is 0 and clears N and H.
   */
  lemma AddThenDaa(rf: RegisterFile, y: u8)
    requires IsBcd(rf.a) && IsBcd(y)
    ensures var r := DaaRegs(AddRegs(rf, A, y, 0)); var total := BcdValue(rf.a) + BcdValue(y);
      && r == rf.(a := r.a, f := r.f)
      && r.a == ToBcd(total % 100) && (r.GetCarryFlag() == 1 <==> total >= 100)
      && (r.GetZeroFlag() == 1 <==> r.a == 0) && r.GetSubtractionFlag() == 0 && r.GetHalfCarryFlag() == 0
  {
    var x := rf.a;
    var r1 := AddRegs(rf, A, y, 0);
    AddRegsOnA(rf, y, 0);
    assert r1.a == (x + y) % 0x100;
    assert r1.GetHalfCarryFlag() == 1 <==> HalfCarry(x, y, 0);
    assert r1.GetCarryFlag() == 1 <==> Carry(x, y, 0) by {
      AddExact(x, y, 0);
    }
    DaaAfterBcdAdd(x, y);
    DaaRegsEffect(r1);
  }

  /** The register side of DAA: A corrected, Z from it, N kept, H cleared, C the high-digit correction. */
  lemma DaaRegsEffect(rf: RegisterFile)
    ensures var r := DaaRegs(rf); var sub := rf.GetSubtractionFlag() != 0;
      && r == rf.(a := r.a, f := r.f)
      && r.a == DaaResult(rf.a, sub, rf.GetHalfCarryFlag() != 0, rf.GetCarryFlag() != 0)
      && (r.GetZeroFlag() == 1 <==> r.a == 0) && r.GetSubtractionFlag() == rf.GetSubtractionFlag()
      && r.GetHalfCarryFlag() == 0 && (r.GetCarryFlag() == 1 <==> DaaCarry(rf.a, sub, rf.GetCarryFlag() != 0))
  {
    var sub := rf.GetSubtractionFlag() != 0;
    var result := DaaResult(rf.a, sub, rf.GetHalfCarryFlag() != 0, rf.GetCarryFlag() != 0);
    SetFlagsTriState(rf.Write(A, result), Flag(result == 0), Keep, 0, Flag(DaaCarry(rf.a, sub, rf.GetCarryFlag() != 0)));
  }

  /** The one-cycle handlers whose effect is a register function: CPL, SCF/CCF, DAA and CP. */
  lemma RegisterHandlers(s: Machine, ins: Instruction)
    requires Emu.Cycle(s, 1).Ok?
    ensures var rf := s.cpu.regs;
      && Complement(s).Ok? && CpuFetch.Spent(s, Complement(s).value, 1) && Complement(s).value.cpu == s.cpu.(regs := ComplementRegs(rf))
      && CarryFlag(s, ins).Ok? && CpuFetch.Spent(s, CarryFlag(s, ins).value, 1)
      && CarryFlag(s, ins).value.cpu == s.cpu.(regs := CarryFlagRegs(rf, ins.kind == SCF))
      && DecimalAdjust(s).Ok? && CpuFetch.Spent(s, DecimalAdjust(s).value, 1) && DecimalAdjust(s).value.cpu == s.cpu.(regs := DaaRegs(rf))
      && Compare(s).Ok? && CpuFetch.Spent(s, Compare(s).value, 1) && Compare(s).value.cpu == s.cpu.(regs := CompareRegs(rf, s.cpu.fetched))
  {
    Cycled(s, 1);
  }

  // ---------------------------------------------------------------------
  // Control flow, interrupt latches and the stack
  // ---------------------------------------------------------------------

  /**
   * Two machine cycles that succeed: the first succeeds, and a second
   * succeeds on any state holding the memory the first left behind.
   */
  lemma SecondCycle(s: Machine, s1: Machine)
    requires Emu.Cycle(s, 2).Ok?
    ensures Emu.Cycle(s, 1).Ok?
    ensures s1.mem == Emu.Cycle(s, 1).value.mem ==> Emu.Cycle(s1, 1).Ok?
  {
    Emu.CycleStep(s, 1);
  }

  /** With no DMA transfer running, cycles cannot fault and start none. */
  lemma IdleCycle(s: Machine, n: u8)
    requires !s.mem.dma.active
    ensures Emu.Cycle(s, n).Ok? && !Emu.Cycle(s, n).value.mem.dma.active
  {
    Emu.CycleEffect(s, n);
    if n > 0 {
      Emu.QuietCyclesOk(s.mem, n);
      Cycled(s, n);
      Dma.IdleStays(s.mem.dma, n);
    }
  }

  /** The target of JP and JR: JR's operand is a signed offset from PC. */
  function JumpTarget(s: Machine, ins: Instruction): u16
  {
    if ins.mode == D8 then Wrap16(s.cpu.regs.pc + ToI8(Lo(s.cpu.fetched))) else s.cpu.fetched
  }

  /** JP HL moves HL's value into PC, in one cycle. */
  lemma JumpRegister(s: Machine, ins: Instruction)
    requires Emu.Cycle(s, 1).Ok? && ins.mode == R
    ensures Jump(s, ins).Ok?
    ensures var rf := s.cpu.regs; var r := Jump(s, ins).value;
      r.cpu == s.cpu.(regs := rf.Write(PC, rf.Read(ins.reg1))) && CpuFetch.Spent(s, r, 1)
  {
    Cycled(s, 1);
  }

  /** JP and JR with the condition met: the target in PC, two cycles. */
  lemma JumpTaken(s: Machine, ins: Instruction)
    requires Emu.Cycle(s, 2).Ok? && ins.mode != R && IsConditionMet(s.cpu.regs, ins.cond)
    ensures Jump(s, ins).Ok?
    ensures var rf := s.cpu.regs; var r := Jump(s, ins).value; var t := JumpTarget(s, ins);
      r.cpu == s.cpu.(fetched := t, regs := rf.(pc := t)) && CpuFetch.Spent(s, r, 2)
  {
    SecondCycle(s, s);
    Cycled(s, 1);
    var s1 := Emu.Cycle(s, 1).value;
    var t := JumpTarget(s, ins);
    var s3 := WithRegs(CpuFetch.WithFetched(s1, t), s.cpu.regs.Write(PC, t));
    JumpTakenSteps(s, ins);
    SecondCycle(s, s3);
    Cycled(s3, 1);
    var r := Emu.Cycle(s3, 1).value;
    assert r.cpu == s.cpu.(fetched := t, regs := s.cpu.regs.(pc := t));
    SpentSame(s, s1, s3, 1);
    SpentCompose(s, s3, r, 1, 1, 2);
  }

  /** The steps of a taken JP or JR: a cycle, the target in PC, another cycle. */
  lemma JumpTakenSteps(s: Machine, ins: Instruction)
    requires Emu.Cycle(s, 2).Ok? && ins.mode != R && IsConditionMet(s.cpu.regs, ins.cond)
    ensures Emu.Cycle(s, 1).Ok?
    ensures var s1 := Emu.Cycle(s, 1).value; var t := JumpTarget(s, ins);
      Jump(s, ins) == Emu.Cycle(WithRegs(CpuFetch.WithFetched(s1, t), s.cpu.regs.Write(PC, t)), 1)
  {
    SecondCycle(s, s);
    CycleKeeps(s, 1);
    var s1 := Emu.Cycle(s, 1).value;
    var t := JumpTarget(s, ins);
    var rf := s1.cpu.regs;
    var s2 := if ins.mode == D8 then CpuFetch.WithFetched(s1, Wrap16(rf.pc + ToI8(Lo(s1.cpu.fetched)))) else s1;
    assert s2 == CpuFetch.WithFetched(s1, t);
  }

  /** JP and JR with the condition not met: only the target recorded, one cycle. */
  lemma JumpNotTaken(s: Machine, ins: Instruction)
    requires Emu.Cycle(s, 1).Ok? && ins.mode != R && !IsConditionMet(s.cpu.regs, ins.cond)
    ensures Jump(s, ins).Ok?
    ensures var r := Jump(s, ins).value; r.cpu == s.cpu.(fetched := JumpTarget(s, ins)) && CpuFetch.Spent(s, r, 1)
  {
    Cycled(s, 1);
  }

  /** RAM after a word was pushed below `sp`: the high byte at sp - 1, the low byte at sp - 2. */
  function PushedRam(ram: Ram.Ram, sp: u16, v: u16): Ram.Ram
    requires StackInRam(sp)
  {
    Bus.RamWrite(Bus.RamWrite(ram, Offset16(sp, -1), Hi(v)), Offset16(sp, -2), Lo(v))
  }

  /** The pushed word reads back from the two bytes below `sp`. */
  lemma PushedRamReads(ram: Ram.Ram, sp: u16, v: u16)
    requires StackInRam(sp)
    ensures Join(Bus.RamRead(PushedRam(ram, sp, v), Offset16(sp, -1)), Bus.RamRead(PushedRam(ram, sp, v), Offset16(sp, -2))) == v
  {
    var ram1 := Bus.RamWrite(ram, Offset16(sp, -1), Hi(v));
    Bus.RamReadWrite(ram1, Offset16(sp, -2), Offset16(sp, -2), Lo(v));
    Bus.RamReadWrite(ram1, Offset16(sp, -2), Offset16(sp, -1), Lo(v));
    Bus.RamReadWrite(ram, Offset16(sp, -1), Offset16(sp, -1), Hi(v));
    JoinSplit(v);
  }

  /** The target of CALL and RST: RST's is its parameter. */
  function CallTarget(s: Machine, ins: Instruction): u16
  {
    if ins.kind == RST then ins.param as u16 else s.cpu.fetched
  }

  /** The steps of a taken CALL: a cycle, the target recorded, PC pushed, the jump and three cycles. */
  lemma CallSteps(s: Machine, ins: Instruction)
    requires Emu.Cycle(s, 1).Ok? && IsConditionMet(s.cpu.regs, ins.cond)
    ensures var s2 := CpuFetch.WithFetched(Emu.Cycle(s, 1).value, CallTarget(s, ins));
      var p := PushWord(s2, s2.cpu.regs.pc);
      p.Ok? ==> Call(s, ins) == Emu.Cycle(WithRegs(p.value, p.value.cpu.regs.Write(PC, s2.cpu.fetched)), 3)
  {
    Cycled(s, 1);
    var s1 := Emu.Cycle(s, 1).value;
    assert CpuFetch.WithFetched(s1, CallTarget(s, ins)) == if ins.kind == RST then CpuFetch.WithFetched(s1, ins.param as u16) else s1;
  }

  /** The tail of a taken CALL: PC pushed, the recorded target in PC, three cycles. */
  lemma CallPath(s: Machine)
    requires !s.mem.dma.active && StackInRam(s.cpu.regs.sp)
    ensures PushWord(s, s.cpu.regs.pc).Ok?
    ensures var p := PushWord(s, s.cpu.regs.pc).value; var c := Emu.Cycle(WithRegs(p, p.cpu.regs.Write(PC, s.cpu.fetched)), 3);
      var rf := s.cpu.regs;
      && c.Ok?
      && c.value.cpu == s.cpu.(regs := rf.(sp := Offset16(rf.sp, -2), pc := s.cpu.fetched))
      && c.value.mem.ram == PushedRam(s.mem.ram, rf.sp, rf.pc)
  {
    var rf := s.cpu.regs;
    PushWordToRam(s, rf.pc);
    var p := PushWord(s, rf.pc).value;
    assert p.cpu.regs == rf.(sp := Offset16(rf.sp, -2)) && p.mem.ram == PushedRam(s.mem.ram, rf.sp, rf.pc);
    assert p.cpu.regs.Write(PC, s.cpu.fetched) == p.cpu.regs.(pc := s.cpu.fetched);
    var s4 := WithRegs(p, p.cpu.regs.Write(PC, s.cpu.fetched));
    IdleCycle(s4, 3);
    CycleKeeps(s4, 3);
  }

  /** The clock over the tail of a taken CALL: three cycles, counted from the state with the pushed RAM. */
  lemma CallPathClock(s: Machine)
    requires !s.mem.dma.active && StackInRam(s.cpu.regs.sp)
    ensures PushWord(s, s.cpu.regs.pc).Ok?
    ensures var p := PushWord(s, s.cpu.regs.pc).value; var c := Emu.Cycle(WithRegs(p, p.cpu.regs.Write(PC, s.cpu.fetched)), 3);
      c.Ok? && CpuFetch.Spent(s.(mem := s.mem.(ram := c.value.mem.ram)), c.value, 3)
  {
    var rf := s.cpu.regs;
    PushWordToRam(s, rf.pc);
    var p := PushWord(s, rf.pc).value;
    var s4 := WithRegs(p, p.cpu.regs.Write(PC, s.cpu.fetched));
    IdleCycle(s4, 3);
    Cycled(s4, 3);
  }

  /** The registers after a taken CALL from s, in the terms CallSteps unfolds it to. */
  lemma CallTailCpu(s: Machine, ins: Instruction)
    requires !s.mem.dma.active && StackInRam(s.cpu.regs.sp)
    ensures Emu.Cycle(s, 1).Ok?
    ensures var s2 := CpuFetch.WithFetched(Emu.Cycle(s, 1).value, CallTarget(s, ins));
      var p := PushWord(s2, s2.cpu.regs.pc);
      var rf := s2.cpu.regs;
      && s2.cpu == s.cpu.(fetched := CallTarget(s, ins))
      && p.Ok?
      && var c := Emu.Cycle(WithRegs(p.value, p.value.cpu.regs.Write(PC, s2.cpu.fetched)), 3);
      && c.Ok?
      && c.value.cpu == s2.cpu.(regs := rf.(sp := Offset16(rf.sp, -2), pc := s2.cpu.fetched))
  {
    IdleCycle(s, 1);
    CycleKeeps(s, 1);
    CallPath(CpuFetch.WithFetched(Emu.Cycle(s, 1).value, CallTarget(s, ins)));
  }

  /** The RAM after a taken CALL from s: PC pushed below SP. */
  lemma CallTailRam(s: Machine, ins: Instruction)
    requires !s.mem.dma.active && StackInRam(s.cpu.regs.sp)
    ensures Emu.Cycle(s, 1).Ok?
    ensures var s2 := CpuFetch.WithFetched(Emu.Cycle(s, 1).value, CallTarget(s, ins));
      var p := PushWord(s2, s2.cpu.regs.pc);
      p.Ok? &&
      var c := Emu.Cycle(WithRegs(p.value, p.value.cpu.regs.Write(PC, s2.cpu.fetched)), 3);
      c.Ok? && c.value.mem.ram == PushedRam(s.mem.ram, s.cpu.regs.sp, s.cpu.regs.pc)
  {
    IdleCycle(s, 1);
    CycleKeeps(s, 1);
    var s2 := CpuFetch.WithFetched(Emu.Cycle(s, 1).value, CallTarget(s, ins));
    CallPath(s2);
    assert s2.mem.ram == s.mem.ram && s2.cpu.regs == s.cpu.regs;
  }

  /** The clock after a taken CALL from s: four cycles, counted from the state with the pushed RAM. */
  lemma CallTailClock(s: Machine, ins: Instruction)
    requires !s.mem.dma.active && StackInRam(s.cpu.regs.sp)
    ensures Emu.Cycle(s, 1).Ok?
    ensures var s2 := CpuFetch.WithFetched(Emu.Cycle(s, 1).value, CallTarget(s, ins));
      var p := PushWord(s2, s2.cpu.regs.pc);
      p.Ok? &&
      var c := Emu.Cycle(WithRegs(p.value, p.value.cpu.regs.Write(PC, s2.cpu.fetched)), 3);
      && c.Ok?
      && CpuFetch.Spent(s.(mem := s.mem.(ram := c.value.mem.ram)), c.value, 4)
  {
    IdleCycle(s, 1);
    Cycled(s, 1);
    var s1 := Emu.Cycle(s, 1).value;
    var rf := s.cpu.regs;
    var s2 := CpuFetch.WithFetched(s1, CallTarget(s, ins));
    CallPath(s2);
    CallPathClock(s2);
    var p := PushWord(s2, s2.cpu.regs.pc).value;
    var r := Emu.Cycle(WithRegs(p, p.cpu.regs.Write(PC, s2.cpu.fetched)), 3).value;
    var ram := PushedRam(s.mem.ram, rf.sp, rf.pc);
    assert s2.mem.ram == s.mem.ram && s2.cpu.regs == rf;
    assert r.mem.ram == ram;
    var s2' := s2.(mem := s2.mem.(ram := ram));
    assert CpuFetch.Spent(s2', r, 3);
    SpentRam(s, s1, s2', 1, ram);
    SpentCompose(s.(mem := s.mem.(ram := ram)), s2', r, 1, 3, 4);
  }

  /** The CPU after the fetched target was pushed over: SP two lower, PC the target. */
  lemma CallGlue(c: CpuState.CpuState, c2: CpuState.CpuState, r: CpuState.CpuState, t: u16)
    ensures c2 == c.(fetched := t) && r == c2.(regs := c2.regs.(sp := Offset16(c2.regs.sp, -2), pc := c2.fetched)) ==>
      r == c.(fetched := t, regs := c.regs.(sp := Offset16(c.regs.sp, -2), pc := t))
  {
  }

  /**
   * With the stack in RAM, no DMA running and the condition met, CALL and
   * RST push PC, lower SP by two and jump to the target, in four cycles.
   */
  lemma CallTaken(s: Machine, ins: Instruction)
    requires !s.mem.dma.active && StackInRam(s.cpu.regs.sp) && IsConditionMet(s.cpu.regs, ins.cond)
    ensures Call(s, ins).Ok?
    ensures var rf := s.cpu.regs; var r := Call(s, ins).value; var t := CallTarget(s, ins);
      && r.cpu == s.cpu.(fetched := t, regs := rf.(sp := Offset16(rf.sp, -2), pc := t))
      && r.mem.ram == PushedRam(s.mem.ram, rf.sp, rf.pc)
      && CpuFetch.Spent(s.(mem := s.mem.(ram := r.mem.ram)), r, 4)
  {
    CallTailCpu(s, ins);
    CallTailRam(s, ins);
    CallTailClock(s, ins);
    CallSteps(s, ins);
    var s2 := CpuFetch.WithFetched(Emu.Cycle(s, 1).value, CallTarget(s, ins));
    var p := PushWord(s2, s2.cpu.regs.pc).value;
    CallGlue(s.cpu, s2.cpu, Call(s, ins).value.cpu, CallTarget(s, ins));
  }

  /** CALL with the condition not met only records the target, in one cycle. */
  lemma CallNotTaken(s: Machine, ins: Instruction)
    requires Emu.Cycle(s, 1).Ok? && !IsConditionMet(s.cpu.regs, ins.cond)
    ensures Call(s, ins).Ok?
    ensures var r := Call(s, ins).value; r.cpu == s.cpu.(fetched := CallTarget(s, ins)) && CpuFetch.Spent(s, r, 1)
  {
    Cycled(s, 1);
  }

  /** RET and RETI after their first two cycles: RETI has raised the pending enable. */
  function ReturnEntered(s: Machine, ins: Instruction): Machine
    requires Emu.Cycle(s, 2).Ok?
  {
    var s1 := Emu.Cycle(s, 2).value;
    if ins.kind == RETI then WithInterrupts(s1, s1.cpu.interruptsEnabled, true) else s1
  }

  /** The steps of a taken return: two cycles, the word popped, two cycles, PC set, and one more cycle if conditional. */
  lemma ReturnSteps(s: Machine, ins: Instruction)
    requires Emu.Cycle(s, 2).Ok? && IsConditionMet(s.cpu.regs, ins.cond)
    ensures var pw := PopWord(ReturnEntered(s, ins));
      pw.Ok? && Emu.Cycle(pw.value.0, 2).Ok? ==>
      var s4 := Emu.Cycle(pw.value.0, 2).value; var s5 := WithRegs(s4, s4.cpu.regs.Write(PC, pw.value.1));
      Return(s, ins) == if ins.cond != CT_NONE then Emu.Cycle(s5, 1) else Ok(s5)
  {
    CycleKeeps(s, 2);
  }

  /** The registers after a taken return, in the terms ReturnSteps unfolds it to. */
  lemma ReturnState(s: Machine, ins: Instruction)
    requires !s.mem.dma.active && Bus.IsRamAddr(s.cpu.regs.sp) && Bus.IsRamAddr(Offset16(s.cpu.regs.sp, 1))
    ensures Emu.Cycle(s, 2).Ok?
    ensures var pw := PopWord(ReturnEntered(s, ins));
      && pw.Ok? && Emu.Cycle(pw.value.0, 2).Ok?
      && var s4 := Emu.Cycle(pw.value.0, 2).value; var s5 := WithRegs(s4, s4.cpu.regs.Write(PC, pw.value.1));
      var rf := s.cpu.regs;
      && pw.value.1 == Join(Bus.RamRead(s.mem.ram, Offset16(rf.sp, 1)), Bus.RamRead(s.mem.ram, rf.sp))
      && s5.cpu == s.cpu.(enableInterrupts := s.cpu.enableInterrupts || ins.kind == RETI, regs := rf.(sp := Offset16(rf.sp, 2), pc := pw.value.1))
      && Emu.Cycle(s5, 1).Ok? && Emu.Cycle(s5, 1).value.cpu == s5.cpu
  {
    IdleCycle(s, 2);
    CycleKeeps(s, 2);
    var s2 := ReturnEntered(s, ins);
    PopWordFromRam(s2);
    var s3 := PopWord(s2).value.0;
    IdleCycle(s3, 2);
    CycleKeeps(s3, 2);
    var s4 := Emu.Cycle(s3, 2).value;
    var s5 := WithRegs(s4, s4.cpu.regs.Write(PC, PopWord(s2).value.1));
    var rf := s.cpu.regs;
    assert s2.cpu == s.cpu.(enableInterrupts := s.cpu.enableInterrupts || ins.kind == RETI);
    assert s3.cpu == s2.cpu.(regs := rf.(sp := Offset16(rf.sp, 2)));
    var popped := PopWord(s2).value.1;
    var r3 := s3.cpu.regs;
    assert r3 == rf.(sp := Offset16(rf.sp, 2));
    assert s4.cpu.regs == r3;
    WriteWordRegister(r3, popped);
    assert s4.cpu.regs.Write(PC, popped) == rf.(sp := Offset16(rf.sp, 2), pc := popped);
    assert s5.cpu == s2.cpu.(regs := rf.(sp := Offset16(rf.sp, 2), pc := popped));
    ReturnGlue(s.cpu, s2.cpu, s5.cpu, s.cpu.enableInterrupts || ins.kind == RETI, rf.(sp := Offset16(rf.sp, 2), pc := popped));
    Dma.IdleStays(s.mem.dma, 2);
    IdleCycle(s5, 1);
    CycleKeeps(s5, 1);
  }

  /** The CPU after the pending enable and then the registers were set. */
  lemma ReturnGlue(c: CpuState.CpuState, c2: CpuState.CpuState, r: CpuState.CpuState, pending: bool, regs: RegisterFile)
    requires c2 == c.(enableInterrupts := pending) && r == c2.(regs := regs)
    ensures r == c.(enableInterrupts := pending, regs := regs)
  {
  }

  /** The clock over a taken return: four cycles to PC set, five with the extra cycle. */
  lemma ReturnClock(s: Machine, ins: Instruction)
    requires !s.mem.dma.active && Bus.IsRamAddr(s.cpu.regs.sp) && Bus.IsRamAddr(Offset16(s.cpu.regs.sp, 1))
    ensures Emu.Cycle(s, 2).Ok?
    ensures var pw := PopWord(ReturnEntered(s, ins));
      && pw.Ok? && Emu.Cycle(pw.value.0, 2).Ok?
      && var s4 := Emu.Cycle(pw.value.0, 2).value; var s5 := WithRegs(s4, s4.cpu.regs.Write(PC, pw.value.1));
      && CpuFetch.Spent(s, s5, 4)
      && Emu.Cycle(s5, 1).Ok? && CpuFetch.Spent(s, Emu.Cycle(s5, 1).value, 5)
  {
    IdleCycle(s, 2);
    Cycled(s, 2);
    var s1 := Emu.Cycle(s, 2).value;
    var s2 := ReturnEntered(s, ins);
    PopWordFromRam(s2);
    var s3 := PopWord(s2).value.0;
    IdleCycle(s3, 2);
    Cycled(s3, 2);
    var s4 := Emu.Cycle(s3, 2).value;
    var s5 := WithRegs(s4, s4.cpu.regs.Write(PC, PopWord(s2).value.1));
    SpentSame(s, s1, s3, 2);
    SpentCompose(s, s3, s4, 2, 2, 4);
    SpentSame(s, s4, s5, 4);
    IdleCycle(s5, 1);
    Cycled(s5, 1);
    SpentCompose(s, s5, Emu.Cycle(s5, 1).value, 4, 1, 5);
  }

  /**
   * With the two stack bytes in RAM, no DMA running and the condition met,
   * RET and RETI move the word at SP to PC and raise SP by two, in four
   * cycles, five for a conditional return; RETI raises the pending enable.
   */
  lemma ReturnTaken(s: Machine, ins: Instruction)
    requires !s.mem.dma.active && Bus.IsRamAddr(s.cpu.regs.sp) && Bus.IsRamAddr(Offset16(s.cpu.regs.sp, 1))
    requires IsConditionMet(s.cpu.regs, ins.cond)
    ensures Return(s, ins).Ok?
    ensures var rf := s.cpu.regs; var r := Return(s, ins).value;
      var popped := Join(Bus.RamRead(s.mem.ram, Offset16(rf.sp, 1)), Bus.RamRead(s.mem.ram, rf.sp));
      && r.cpu == s.cpu.(enableInterrupts := s.cpu.enableInterrupts || ins.kind == RETI, regs := rf.(sp := Offset16(rf.sp, 2), pc := popped))
      && CpuFetch.Spent(s, r, if ins.cond != CT_NONE then 5 else 4)
  {
    ReturnState(s, ins);
    ReturnClock(s, ins);
    ReturnSteps(s, ins);
  }

  /** RET with the condition not met spends two cycles; RETI still raises the pending enable. */
  lemma ReturnNotTaken(s: Machine, ins: Instruction)
    requires Emu.Cycle(s, 2).Ok? && !IsConditionMet(s.cpu.regs, ins.cond)
    ensures Return(s, ins).Ok?
    ensures var r := Return(s, ins).value;
      r.cpu == s.cpu.(enableInterrupts := s.cpu.enableInterrupts || ins.kind == RETI) && CpuFetch.Spent(s, r, 2)
  {
    Cycled(s, 2);
  }

  /**
   * An unconditional CALL (or RST) followed by an unconditional RET brings
   * back every register: PC to the instruction after the call, SP to where
   * it was.
   */
  lemma CallReturnRoundTrip(s: Machine, call: Instruction, ret: Instruction)
    requires !s.mem.dma.active && StackInRam(s.cpu.regs.sp)
    requires call.cond == CT_NONE && ret.kind == RET && ret.cond == CT_NONE
    ensures Call(s, call).Ok? && Return(Call(s, call).value, ret).Ok?
    ensures Return(Call(s, call).value, ret).value.cpu.regs == s.cpu.regs
  {
    var rf := s.cpu.regs;
    ConditionFlags(rf);
    CallTaken(s, call);
    var r := Call(s, call).value;
    Dma.IdleStays(s.mem.dma, 4);
    var sp2 := Offset16(rf.sp, -2);
    OffsetCompose(rf.sp, -2, 1, -1);
    OffsetCompose(rf.sp, -2, 2, 0);
    assert Offset16(sp2, 1) == Offset16(rf.sp, -1) && Offset16(sp2, 2) == rf.sp;
    ConditionFlags(r.cpu.regs);
    ReturnTaken(r, ret);
    PushedRamReads(s.mem.ram, rf.sp, rf.pc);
  }

  /** EI raises only the pending enable; DI clears it and the master enable; one cycle either way. */
  lemma EnableDisableEffect(s: Machine, ins: Instruction)
    requires Emu.Cycle(s, 1).Ok?
    ensures EnableDisable(s, ins).Ok?
    ensures var r := EnableDisable(s, ins).value;
      && CpuFetch.Spent(s, r, 1)
      && r.cpu == if ins.kind == EI then s.cpu.(enableInterrupts := true)
                  else s.cpu.(interruptsEnabled := false, enableInterrupts := false)
  {
    Cycled(s, 1);
  }

  /** The steps of PUSH: a cycle, the register's word pushed, three cycles. */
  lemma PushSteps(s: Machine, ins: Instruction)
    requires ins.kind == PUSH && Emu.Cycle(s, 1).Ok?
    ensures var p := PushWord(Emu.Cycle(s, 1).value, s.cpu.regs.Read(ins.reg1));
      p.Ok? ==> PushPop(s, ins) == Emu.Cycle(p.value, 3)
  {
    CycleKeeps(s, 1);
  }

  /** The registers and RAM after PUSH with the stack in RAM, in the terms PushSteps unfolds it to. */
  lemma PushState(s: Machine, ins: Instruction)
    requires !s.mem.dma.active && StackInRam(s.cpu.regs.sp)
    ensures Emu.Cycle(s, 1).Ok?
    ensures var rf := s.cpu.regs; var p := PushWord(Emu.Cycle(s, 1).value, rf.Read(ins.reg1));
      && p.Ok? && Emu.Cycle(p.value, 3).Ok?
      && Emu.Cycle(p.value, 3).value.cpu == s.cpu.(regs := rf.(sp := Offset16(rf.sp, -2)))
      && Emu.Cycle(p.value, 3).value.mem.ram == PushedRam(s.mem.ram, rf.sp, rf.Read(ins.reg1))
  {
    IdleCycle(s, 1);
    CycleKeeps(s, 1);
    var s1 := Emu.Cycle(s, 1).value;
    PushWordToRam(s1, s.cpu.regs.Read(ins.reg1));
    var s2 := PushWord(s1, s.cpu.regs.Read(ins.reg1)).value;
    IdleCycle(s2, 3);
    CycleKeeps(s2, 3);
  }

  /** The clock over PUSH with the stack in RAM: four cycles, counted from the state with the pushed RAM. */
  lemma PushClock(s: Machine, ins: Instruction)
    requires !s.mem.dma.active && StackInRam(s.cpu.regs.sp)
    ensures Emu.Cycle(s, 1).Ok?
    ensures var p := PushWord(Emu.Cycle(s, 1).value, s.cpu.regs.Read(ins.reg1));
      && p.Ok? && Emu.Cycle(p.value, 3).Ok?
      && var r := Emu.Cycle(p.value, 3).value;
      CpuFetch.Spent(s.(mem := s.mem.(ram := r.mem.ram)), r, 4)
  {
    IdleCycle(s, 1);
    Cycled(s, 1);
    var s1 := Emu.Cycle(s, 1).value;
    var rf := s.cpu.regs;
    PushWordToRam(s1, rf.Read(ins.reg1));
    var s2 := PushWord(s1, rf.Read(ins.reg1)).value;
    IdleCycle(s2, 3);
    Cycled(s2, 3);
    var ram := PushedRam(s.mem.ram, rf.sp, rf.Read(ins.reg1));
    assert CpuFetch.Spent(s.(mem := s.mem.(ram := ram)), s2, 1);
    SpentCompose(s.(mem := s.mem.(ram := ram)), s2, Emu.Cycle(s2, 3).value, 1, 3, 4);
  }

  /** PUSH with the stack in RAM: the register's word below SP, SP two lower, four cycles. */
  lemma PushEffect(s: Machine, ins: Instruction)
    requires ins.kind == PUSH && !s.mem.dma.active && StackInRam(s.cpu.regs.sp)
    ensures PushPop(s, ins).Ok?
    ensures var rf := s.cpu.regs; var r := PushPop(s, ins).value;
      && r.cpu == s.cpu.(regs := rf.(sp := Offset16(rf.sp, -2)))
      && r.mem.ram == PushedRam(s.mem.ram, rf.sp, rf.Read(ins.reg1))
      && CpuFetch.Spent(s.(mem := s.mem.(ram := r.mem.ram)), r, 4)
  {
    PushState(s, ins);
    PushClock(s, ins);
    PushSteps(s, ins);
  }

  /** POP with the stack in RAM: the word at SP into the register (F's low nibble cleared for AF), SP two higher, three cycles. */
  lemma PopEffect(s: Machine, ins: Instruction)
    requires ins.kind != PUSH && !s.mem.dma.active
    requires Bus.IsRamAddr(s.cpu.regs.sp) && Bus.IsRamAddr(Offset16(s.cpu.regs.sp, 1))
    ensures PushPop(s, ins).Ok?
    ensures var rf := s.cpu.regs; var r := PushPop(s, ins).value;
      var w := Join(Bus.RamRead(s.mem.ram, Offset16(rf.sp, 1)), Bus.RamRead(s.mem.ram, rf.sp));
      && r.cpu == s.cpu.(regs := rf.(sp := Offset16(rf.sp, 2)).Write(ins.reg1, if ins.reg1 == AF then MaskFlags(w) else w))
      && CpuFetch.Spent(s, r, 3)
  {
    IdleCycle(s, 1);
    Cycled(s, 1);
    var s1 := Emu.Cycle(s, 1).value;
    PopWordFromRam(s1);
    var s2 := PopWord(s1).value.0;
    IdleCycle(s2, 2);
    Cycled(s2, 2);
    SpentCompose(s, s2, Emu.Cycle(s2, 2).value, 1, 2, 3);
  }

  /** Writing a pair back with its own value restores the file; for AF only F's flag bits survive. */
  lemma PairRestore(rf: RegisterFile, t: RegisterType)
    requires t in {AF, BC, DE, HL}
    ensures var w := rf.Read(t);
      rf.Write(t, if t == AF then MaskFlags(w) else w) == if t == AF then rf.(f := FlagBits(rf.f)) else rf
  {
    match t
    case AF =>
      assert rf.Read(AF) == Join(rf.a, rf.f);
      assert MaskFlags(Join(rf.a, rf.f)) == Join(rf.a, FlagBits(rf.f));
    case BC => assert rf.Read(BC) == Join(rf.b, rf.c);
    case DE => assert rf.Read(DE) == Join(rf.d, rf.e);
    case HL => assert rf.Read(HL) == Join(rf.h, rf.l);
  }

  /**
   * PUSH rr then POP rr gives every register back, except that POP AF
   * clears the low nibble of F.
   */
  lemma PushPopRoundTrip(s: Machine, push: Instruction, pop: Instruction)
    requires push.kind == PUSH && pop.kind == POP && pop.reg1 == push.reg1 && push.reg1 in {AF, BC, DE, HL}
    requires !s.mem.dma.active && StackInRam(s.cpu.regs.sp)
    ensures PushPop(s, push).Ok? && PushPop(PushPop(s, push).value, pop).Ok?
    ensures var r := PushPop(PushPop(s, push).value, pop).value; var rf := s.cpu.regs;
      r.cpu.regs == if push.reg1 == AF then rf.(f := FlagBits(rf.f)) else rf
  {
    var rf := s.cpu.regs;
    var v := rf.Read(push.reg1);
    PushEffect(s, push);
    var p := PushPop(s, push).value;
    Dma.IdleStays(s.mem.dma, 4);
    var sp2 := Offset16(rf.sp, -2);
    OffsetCompose(rf.sp, -2, 1, -1);
    OffsetCompose(rf.sp, -2, 2, 0);
    assert Offset16(sp2, 1) == Offset16(rf.sp, -1) && Offset16(sp2, 2) == rf.sp;
    PopEffect(p, pop);
    PushedRamReads(s.mem.ram, rf.sp, v);
    var w := Join(Bus.RamRead(p.mem.ram, Offset16(sp2, 1)), Bus.RamRead(p.mem.ram, sp2));
    assert w == v;
    assert p.cpu.regs.(sp := Offset16(sp2, 2)) == rf;
    PairRestore(rf, push.reg1);
  }
}
