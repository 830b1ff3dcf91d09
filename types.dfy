/**
 * The enumerations of the emulator core. Each C++ enum becomes a datatype;
 * where the code does arithmetic or comparisons on an enumerator, the
 * enumerator's underlying value is given by an `Ord` function.
 */
module Types {
  import opened Bits

  /** Operand addressing modes, in declaration order. */
  datatype AddrMode =
    | IMP | R_D16 | R_R | MR_R | R | R_D8 | R_MR | R_HLI | R_HLD | HLI_R | HLD_R
    | R_A8 | A8_R | HL_SPD | D16 | D8 | D16_R | MR_D8 | MR | A16_R | R_A16

  /** All addressing modes, in the order of the enum. */
  const AllAddrModes: seq<AddrMode> :=
    [IMP, R_D16, R_R, MR_R, R, R_D8, R_MR, R_HLI, R_HLD, HLI_R, HLD_R,
     R_A8, A8_R, HL_SPD, D16, D8, D16_R, MR_D8, MR, A16_R, R_A16]

  datatype RegisterType = NONE | A | F | B | C | D | E | H | L | AF | BC | DE | HL | SP | PC

  /** The underlying value of a RegisterType enumerator. */
  function RegOrd(t: RegisterType): (r: nat)
    ensures r < 15
  {
    match t
    case NONE => 0 case A => 1 case F => 2 case B => 3 case C => 4
    case D => 5 case E => 6 case H => 7 case L => 8 case AF => 9
    case BC => 10 case DE => 11 case HL => 12 case SP => 13 case PC => 14
  }

  datatype InstrType =
    | NOP | LD | INC | DEC | RLCA | ADD | RRCA | STOP | RLA | JR | RRA | DAA | CPL | SCF | CCF
    | HALT | ADC | SUB | SBC | AND | XOR | OR | CP | POP | JP | PUSH | RET | CB | CALL | RETI
    | LDH | DI | EI | RST
    | RLC | RRC | RL | RR | SLA | SRA | SWAP | SRL | BIT | RES | SET

  /** The underlying value of an InstrType enumerator. */
  function InstrOrd(t: InstrType): (r: nat)
    ensures r < 45
  {
    match t
    case NOP => 0 case LD => 1 case INC => 2 case DEC => 3 case RLCA => 4 case ADD => 5
    case RRCA => 6 case STOP => 7 case RLA => 8 case JR => 9 case RRA => 10 case DAA => 11
    case CPL => 12 case SCF => 13 case CCF => 14 case HALT => 15 case ADC => 16 case SUB => 17
    case SBC => 18 case AND => 19 case XOR => 20 case OR => 21 case CP => 22 case POP => 23
    case JP => 24 case PUSH => 25 case RET => 26 case CB => 27 case CALL => 28 case RETI => 29
    case LDH => 30 case DI => 31 case EI => 32 case RST => 33 case RLC => 34 case RRC => 35
    case RL => 36 case RR => 37 case SLA => 38 case SRA => 39 case SWAP => 40 case SRL => 41
    case BIT => 42 case RES => 43 case SET => 44
  }

  /**
   * The cast `(in_type)v` of an integer back to an enumerator. A value past
   * the last enumerator names no instruction type.
   */
  function InstrFromOrd(v: nat): (r: Option<InstrType>)
    ensures r.Some? <==> v < 45
  {
    match v
    case 0 => Some(NOP) case 1 => Some(LD) case 2 => Some(INC) case 3 => Some(DEC)
    case 4 => Some(RLCA) case 5 => Some(ADD) case 6 => Some(RRCA) case 7 => Some(STOP)
    case 8 => Some(RLA) case 9 => Some(JR) case 10 => Some(RRA) case 11 => Some(DAA)
    case 12 => Some(CPL) case 13 => Some(SCF) case 14 => Some(CCF) case 15 => Some(HALT)
    case 16 => Some(ADC) case 17 => Some(SUB) case 18 => Some(SBC) case 19 => Some(AND)
    case 20 => Some(XOR) case 21 => Some(OR) case 22 => Some(CP) case 23 => Some(POP)
    case 24 => Some(JP) case 25 => Some(PUSH) case 26 => Some(RET) case 27 => Some(CB)
    case 28 => Some(CALL) case 29 => Some(RETI) case 30 => Some(LDH) case 31 => Some(DI)
    case 32 => Some(EI) case 33 => Some(RST) case 34 => Some(RLC) case 35 => Some(RRC)
    case 36 => Some(RL) case 37 => Some(RR) case 38 => Some(SLA) case 39 => Some(SRA)
    case 40 => Some(SWAP) case 41 => Some(SRL) case 42 => Some(BIT) case 43 => Some(RES)
    case 44 => Some(SET)
    case _ => None
  }

  datatype Option<+T> = None | Some(value: T)

  /**
   * The ways the core stops instead of returning: `NO_IMPL`, `__debugbreak`
   * and `exit(-7)`, plus the out-of-range array and vector indexes that the
   * C++ code performs without a check (undefined behaviour there).
   */
  datatype Fault =
    | UnmappedRead(address: u16)      // MEM_BUS::ReadByte: NO_IMPL("MemRead")
    | UnmappedWrite(address: u16)     // MEM_BUS::WriteByte: NO_IMPL("MemWrite")
    | RomWrite(address: u16)          // Cartridge::WriteByte: NO_IMPL("CartWrite")
    | NoExtRamRead(address: u16)      // Cartridge::ReadByte with no banks: __debugbreak
    | NoExtRamWrite(address: u16)     // Cartridge::WriteByte with no banks: __debugbreak
    | RomOutOfRange(address: u16)     // romData[address] past the end of the ROM image
    | OamOutOfRange(index: u16)       // oam[index] past the 160-byte array
    | BadTimerAddress(address: u16)   // Timer::ReadByte / WriteByte: exit(-7)
    | InvalidCbOpcode(cbOpcode: u8)   // Instruction_CB: NO_IMPL("Invalid CB opcode!")
    | InvalidLogicOp                  // Instruction_AND_OR_XOR: NO_IMPL
    | DebugBufferOverflow             // DebugBuffer[DebugBufferMsgSize] past 1024 bytes

  /** A value, or the fault that stopped the emulator; `:-` propagates the fault. */
  datatype Result<+T> = Ok(value: T) | Fail(fault: Fault)
  {
    predicate IsFailure() { Fail? }

    function PropagateFailure<U>(): Result<U>
      requires Fail?
    {
      Fail(fault)
    }

    function Extract(): T
      requires Ok?
    {
      value
    }
  }

  /** The outcome of a state-changing step with no result value. */
  datatype Status = Done | Stop(fault: Fault)
  {
    predicate IsFailure() { Stop? }

    function PropagateFailure(): Status
      requires Stop?
    {
      this
    }
  }

  datatype CondType = CT_NONE | CT_NZ | CT_Z | CT_NC | CT_C

  const AllCondTypes: seq<CondType> := [CT_NONE, CT_NZ, CT_Z, CT_NC, CT_C]

  datatype IntType = VBlank | LcdStat | Timer | Serial | Joypad

  /** The bit value of an interrupt source: 1 << k for the k-th source. */
  function IntBit(t: IntType): (r: u8)
  {
    match t
    case VBlank => 1
    case LcdStat => 1 * 2
    case Timer => 1 * 4
    case Serial => 1 * 8
    case Joypad => 1 * 16
  }

  /** The position of an interrupt source's bit in IF and IE. */
  function IntIndex(t: IntType): (k: nat)
    ensures k < 5
  {
    match t
    case VBlank => 0 case LcdStat => 1 case Timer => 2 case Serial => 3 case Joypad => 4
  }

  datatype LcdMode = HBlankMode | VBlankMode | OamMode | XferMode

  function LcdModeValue(m: LcdMode): (r: u8)
  {
    match m
    case HBlankMode => 0 case VBlankMode => 1 case OamMode => 2 case XferMode => 3
  }

  datatype LcdsIntSrc = HBlankSrc | VBlankSrc | OamSrc | LycSrc

  function LcdsIntSrcValue(s: LcdsIntSrc): (r: u8)
  {
    match s
    case HBlankSrc => 1 * 8 case VBlankSrc => 1 * 16 case OamSrc => 1 * 32 case LycSrc => 1 * 64
  }

  datatype CgbFlag = CgbNone | CgbCompatible | CgbOnly

  function CgbFlagValue(f: CgbFlag): (r: u8)
  {
    match f
    case CgbNone => 0 case CgbCompatible => 1 case CgbOnly => 2
  }

  /** The shift and rotate operations of the CB table, in the order of their enumerators. */
  function CbShiftKind(k: nat): InstrType
    requires k < 8
  {
    match k
    case 0 => RLC case 1 => RRC case 2 => RL case 3 => RR
    case 4 => SLA case 5 => SRA case 6 => SWAP case 7 => SRL
  }

  /** The bit operations of the CB table, in the order of their enumerators. */
  function CbBitKind(k: nat): InstrType
    requires k < 3
  {
    match k
    case 0 => BIT case 1 => RES case 2 => SET
  }

  // ---------------------------------------------------------------------
  // Properties of the enumerations that the rest of the code relies on.
  // ---------------------------------------------------------------------

  /** Each interrupt source is the single bit at its index, so per-source IF/IE tests are disjoint. */
  lemma IntBitsAreSingleBits(t: IntType, u: IntType)
    ensures IntBit(t) == Pow2(IntIndex(t))
    ensures Bit(IntBit(t), IntIndex(u)) == (if t == u then 1 else 0)
  {
    Pow2Values();
  }

  /** `type >= RT_AF` holds exactly for the six word registers. */
  lemma WordRegistersAfterByteRegisters(t: RegisterType)
    ensures RegOrd(t) >= RegOrd(AF) <==> t in {AF, BC, DE, HL, SP, PC}
  {
  }

  /** The CB shifts follow one another from RLC, so `RLC + k` names the k-th of them. */
  lemma CbShiftsContiguous(k: nat)
    requires k < 8
    ensures InstrFromOrd(InstrOrd(RLC) + k) == Some(CbShiftKind(k))
  {
    match k
    case 0 => case 1 => case 2 => case 3 => case 4 => case 5 => case 6 => case 7 =>
  }

  /** BIT, RES and SET follow the shifts, so `BIT + j` names the j-th of them and nothing lies past SET. */
  lemma CbBitOpsContiguous(k: nat)
    ensures InstrOrd(RLC) + 8 == InstrOrd(BIT)
    ensures k < 3 ==> InstrFromOrd(InstrOrd(BIT) + k) == Some(CbBitKind(k))
    ensures InstrFromOrd(InstrOrd(SET) + 1 + k) == None
  {
  }

  /** Every enumerator converts back to itself. */
  lemma InstrOrdRoundTrip(t: InstrType)
    ensures InstrFromOrd(InstrOrd(t)) == Some(t)
  {
    match t
    case NOP => case LD => case INC => case DEC => case RLCA => case ADD => case RRCA => case STOP => case RLA =>
    case JR => case RRA => case DAA => case CPL => case SCF => case CCF => case HALT => case ADC => case SUB =>
    case SBC => case AND => case XOR => case OR => case CP => case POP => case JP => case PUSH => case RET =>
    case CB => case CALL => case RETI => case LDH => case DI => case EI => case RST => case RLC => case RRC =>
    case RL => case RR => case SLA => case SRA => case SWAP => case SRL => case BIT => case RES => case SET =>
  }

  /** Enumerator values are distinct: InstrOrd is injective. */
  lemma InstrOrdInjective(t: InstrType, u: InstrType)
    ensures InstrOrd(t) == InstrOrd(u) ==> t == u
  {
    InstrOrdRoundTrip(t);
    InstrOrdRoundTrip(u);
  }

  /** The zero enumerators are NOP, IMP and NONE: a value-initialised instruction is a NOP. */
  lemma ZeroEnumerators()
    ensures InstrOrd(NOP) == 0 && AllAddrModes[0] == IMP && RegOrd(NONE) == 0
    ensures AllCondTypes[0] == CT_NONE
  {
  }

  /** LCD modes are 0..3 and the STAT interrupt sources are bits 3..6. */
  lemma LcdEnumerations(m: LcdMode, s: LcdsIntSrc)
    ensures LcdModeValue(m) < 4
    ensures LcdsIntSrcValue(s) == Pow2(match s case HBlankSrc => 3 case VBlankSrc => 4 case OamSrc => 5 case LycSrc => 6)
  {
    Pow2Values();
  }
}
