/**
 * The opcode table: for each of the 256 opcodes the instruction type, the
 * addressing mode, the two register operands, the condition and a
 * parameter (the RST target). Entries the table leaves empty are
 * value-initialised, which makes them NOP with implied addressing. The
 * table is written in the sixteen rows of sixteen in which the source
 * groups it.
 */
module Instructions {
  import opened Bits
  import opened Types

  datatype Instruction = Instruction(
    kind: InstrType,
    mode: AddrMode := IMP,
    reg1: RegisterType := NONE,
    reg2: RegisterType := NONE,
    cond: CondType := CT_NONE,
    param: u8 := 0)

  /** Opcodes 0x00-0x0F. */
  const Row0: seq<Instruction> := [
    Instruction(NOP),  // 00
    Instruction(LD, R_D16, BC),  // 01
    Instruction(LD, MR_R, BC, A),  // 02
    Instruction(INC, R, BC),  // 03
    Instruction(INC, R, B),  // 04
    Instruction(DEC, R, B),  // 05
    Instruction(LD, R_D8, B),  // 06
    Instruction(RLCA),  // 07
    Instruction(LD, A16_R, NONE, SP),  // 08
    Instruction(ADD, R_R, HL, BC),  // 09
    Instruction(LD, R_MR, A, BC),  // 0A
    Instruction(DEC, R, BC),  // 0B
    Instruction(INC, R, C),  // 0C
    Instruction(DEC, R, C),  // 0D
    Instruction(LD, R_D8, C),  // 0E
    Instruction(RRCA)  // 0F
  ]

  /** Opcodes 0x10-0x1F. */
  const Row1: seq<Instruction> := [
    Instruction(STOP),  // 10
    Instruction(LD, R_D16, DE),  // 11
    Instruction(LD, MR_R, DE, A),  // 12
    Instruction(INC, R, DE),  // 13
    Instruction(INC, R, D),  // 14
    Instruction(DEC, R, D),  // 15
    Instruction(LD, R_D8, D),  // 16
    Instruction(RLA),  // 17
    Instruction(JR, D8),  // 18
    Instruction(ADD, R_R, HL, DE),  // 19
    Instruction(LD, R_MR, A, DE),  // 1A
    Instruction(DEC, R, DE),  // 1B
    Instruction(INC, R, E),  // 1C
    Instruction(DEC, R, E),  // 1D
    Instruction(LD, R_D8, E),  // 1E
    Instruction(RRA)  // 1F
  ]

  /** Opcodes 0x20-0x2F. */
  const Row2: seq<Instruction> := [
    Instruction(JR, D8, NONE, NONE, CT_NZ),  // 20
    Instruction(LD, R_D16, HL),  // 21
    Instruction(LD, HLI_R, HL, A),  // 22
    Instruction(INC, R, HL),  // 23
    Instruction(INC, R, H),  // 24
    Instruction(DEC, R, H),  // 25
    Instruction(LD, R_D8, H),  // 26
    Instruction(DAA),  // 27
    Instruction(JR, D8, NONE, NONE, CT_Z),  // 28
    Instruction(ADD, R_R, HL, HL),  // 29
    Instruction(LD, R_HLI, A, HL),  // 2A
    Instruction(DEC, R, HL),  // 2B
    Instruction(INC, R, L),  // 2C
    Instruction(DEC, R, L),  // 2D
    Instruction(LD, R_D8, L),  // 2E
    Instruction(CPL)  // 2F
  ]

  /** Opcodes 0x30-0x3F. */
  const Row3: seq<Instruction> := [
    Instruction(JR, D8, NONE, NONE, CT_NC),  // 30
    Instruction(LD, R_D16, SP),  // 31
    Instruction(LD, HLD_R, HL, A),  // 32
    Instruction(INC, R, SP),  // 33
    Instruction(INC, MR, HL),  // 34
    Instruction(DEC, MR, HL),  // 35
    Instruction(LD, MR_D8, HL),  // 36
    Instruction(SCF),  // 37
    Instruction(JR, D8, NONE, NONE, CT_C),  // 38
    Instruction(ADD, R_R, HL, SP),  // 39
    Instruction(LD, R_HLD, A, HL),  // 3A
    Instruction(DEC, R, SP),  // 3B
    Instruction(INC, R, A),  // 3C
    Instruction(DEC, R, A),  // 3D
    Instruction(LD, R_D8, A),  // 3E
    Instruction(CCF)  // 3F
  ]

  /** Opcodes 0x40-0x4F. */
  const Row4: seq<Instruction> := [
    Instruction(LD, R_R, B, B),  // 40
    Instruction(LD, R_R, B, C),  // 41
    Instruction(LD, R_R, B, D),  // 42
    Instruction(LD, R_R, B, E),  // 43
    Instruction(LD, R_R, B, H),  // 44
    Instruction(LD, R_R, B, L),  // 45
    Instruction(LD, R_MR, B, HL),  // 46
    Instruction(LD, R_R, B, A),  // 47
    Instruction(LD, R_R, C, B),  // 48
    Instruction(LD, R_R, C, C),  // 49
    Instruction(LD, R_R, C, D),  // 4A
    Instruction(LD, R_R, C, E),  // 4B
    Instruction(LD, R_R, C, H),  // 4C
    Instruction(LD, R_R, C, L),  // 4D
    Instruction(LD, R_MR, C, HL),  // 4E
    Instruction(LD, R_R, C, A)  // 4F
  ]

  /** Opcodes 0x50-0x5F. */
  const Row5: seq<Instruction> := [
    Instruction(LD, R_R, D, B),  // 50
    Instruction(LD, R_R, D, C),  // 51
    Instruction(LD, R_R, D, D),  // 52
    Instruction(LD, R_R, D, E),  // 53
    Instruction(LD, R_R, D, H),  // 54
    Instruction(LD, R_R, D, L),  // 55
    Instruction(LD, R_MR, D, HL),  // 56
    Instruction(LD, R_R, D, A),  // 57
    Instruction(LD, R_R, E, B),  // 58
    Instruction(LD, R_R, E, C),  // 59
    Instruction(LD, R_R, E, D),  // 5A
    Instruction(LD, R_R, E, E),  // 5B
    Instruction(LD, R_R, E, H),  // 5C
    Instruction(LD, R_R, E, L),  // 5D
    Instruction(LD, R_MR, E, HL),  // 5E
    Instruction(LD, R_R, E, A)  // 5F
  ]

  /** Opcodes 0x60-0x6F. */
  const Row6: seq<Instruction> := [
    Instruction(LD, R_R, H, B),  // 60
    Instruction(LD, R_R, H, C),  // 61
    Instruction(LD, R_R, H, D),  // 62
    Instruction(LD, R_R, H, E),  // 63
    Instruction(LD, R_R, H, H),  // 64
    Instruction(LD, R_R, H, L),  // 65
    Instruction(LD, R_MR, H, HL),  // 66
    Instruction(LD, R_R, H, A),  // 67
    Instruction(LD, R_R, L, B),  // 68
    Instruction(LD, R_R, L, C),  // 69
    Instruction(LD, R_R, L, D),  // 6A
    Instruction(LD, R_R, L, E),  // 6B
    Instruction(LD, R_R, L, H),  // 6C
    Instruction(LD, R_R, L, L),  // 6D
    Instruction(LD, R_MR, L, HL),  // 6E
    Instruction(LD, R_R, L, A)  // 6F
  ]

  /** Opcodes 0x70-0x7F. */
  const Row7: seq<Instruction> := [
    Instruction(LD, MR_R, HL, B),  // 70
    Instruction(LD, MR_R, HL, C),  // 71
    Instruction(LD, MR_R, HL, D),  // 72
    Instruction(LD, MR_R, HL, E),  // 73
    Instruction(LD, MR_R, HL, H),  // 74
    Instruction(LD, MR_R, HL, L),  // 75
    Instruction(HALT),  // 76
    Instruction(LD, MR_R, HL, A),  // 77
    Instruction(LD, R_R, A, B),  // 78
    Instruction(LD, R_R, A, C),  // 79
    Instruction(LD, R_R, A, D),  // 7A
    Instruction(LD, R_R, A, E),  // 7B
    Instruction(LD, R_R, A, H),  // 7C
    Instruction(LD, R_R, A, L),  // 7D
    Instruction(LD, R_MR, A, HL),  // 7E
    Instruction(LD, R_R, A, A)  // 7F
  ]

  /** Opcodes 0x80-0x8F. */
  const Row8: seq<Instruction> := [
    Instruction(ADD, R_R, A, B),  // 80
    Instruction(ADD, R_R, A, C),  // 81
    Instruction(ADD, R_R, A, D),  // 82
    Instruction(ADD, R_R, A, E),  // 83
    Instruction(ADD, R_R, A, H),  // 84
    Instruction(ADD, R_R, A, L),  // 85
    Instruction(ADD, R_MR, A, HL),  // 86
    Instruction(ADD, R_R, A, A),  // 87
    Instruction(ADC, R_R, A, B),  // 88
    Instruction(ADC, R_R, A, C),  // 89
    Instruction(ADC, R_R, A, D),  // 8A
    Instruction(ADC, R_R, A, E),  // 8B
    Instruction(ADC, R_R, A, H),  // 8C
    Instruction(ADC, R_R, A, L),  // 8D
    Instruction(ADC, R_MR, A, HL),  // 8E
    Instruction(ADC, R_R, A, A)  // 8F
  ]

  /** Opcodes 0x90-0x9F. */
  const Row9: seq<Instruction> := [
    Instruction(SUB, R_R, A, B),  // 90
    Instruction(SUB, R_R, A, C),  // 91
    Instruction(SUB, R_R, A, D),  // 92
    Instruction(SUB, R_R, A, E),  // 93
    Instruction(SUB, R_R, A, H),  // 94
    Instruction(SUB, R_R, A, L),  // 95
    Instruction(SUB, R_MR, A, HL),  // 96
    Instruction(SUB, R_R, A, A),  // 97
    Instruction(SBC, R_R, A, B),  // 98
    Instruction(SBC, R_R, A, C),  // 99
    Instruction(SBC, R_R, A, D),  // 9A
    Instruction(SBC, R_R, A, E),  // 9B
    Instruction(SBC, R_R, A, H),  // 9C
    Instruction(SBC, R_R, A, L),  // 9D
    Instruction(SBC, R_MR, A, HL),  // 9E
    Instruction(SBC, R_R, A, A)  // 9F
  ]

  /** Opcodes 0xA0-0xAF. */
  const RowA: seq<Instruction> := [
    Instruction(AND, R_R, A, B),  // A0
    Instruction(AND, R_R, A, C),  // A1
    Instruction(AND, R_R, A, D),  // A2
    Instruction(AND, R_R, A, E),  // A3
    Instruction(AND, R_R, A, H),  // A4
    Instruction(AND, R_R, A, L),  // A5
    Instruction(AND, R_MR, A, HL),  // A6
    Instruction(AND, R_R, A, A),  // A7
    Instruction(XOR, R_R, A, B),  // A8
    Instruction(XOR, R_R, A, C),  // A9
    Instruction(XOR, R_R, A, D),  // AA
    Instruction(XOR, R_R, A, E),  // AB
    Instruction(XOR, R_R, A, H),  // AC
    Instruction(XOR, R_R, A, L),  // AD
    Instruction(XOR, R_MR, A, HL),  // AE
    Instruction(XOR, R_R, A, A)  // AF
  ]

  /** Opcodes 0xB0-0xBF. */
  const RowB: seq<Instruction> := [
    Instruction(OR, R_R, A, B),  // B0
    Instruction(OR, R_R, A, C),  // B1
    Instruction(OR, R_R, A, D),  // B2
    Instruction(OR, R_R, A, E),  // B3
    Instruction(OR, R_R, A, H),  // B4
    Instruction(OR, R_R, A, L),  // B5
    Instruction(OR, R_MR, A, HL),  // B6
    Instruction(OR, R_R, A, A),  // B7
    Instruction(CP, R_R, A, B),  // B8
    Instruction(CP, R_R, A, C),  // B9
    Instruction(CP, R_R, A, D),  // BA
    Instruction(CP, R_R, A, E),  // BB
    Instruction(CP, R_R, A, H),  // BC
    Instruction(CP, R_R, A, L),  // BD
    Instruction(CP, R_MR, A, HL),  // BE
    Instruction(CP, R_R, A, A)  // BF
  ]

  /** Opcodes 0xC0-0xCF. */
  const RowC: seq<Instruction> := [
    Instruction(RET, IMP, NONE, NONE, CT_NZ),  // C0
    Instruction(POP, R, BC),  // C1
    Instruction(JP, D16, NONE, NONE, CT_NZ),  // C2
    Instruction(JP, D16),  // C3
    Instruction(CALL, D16, NONE, NONE, CT_NZ),  // C4
    Instruction(PUSH, R, BC),  // C5
    Instruction(ADD, R_D8, A),  // C6
    Instruction(RST),  // C7
    Instruction(RET, IMP, NONE, NONE, CT_Z),  // C8
    Instruction(RET),  // C9
    Instruction(JP, D16, NONE, NONE, CT_Z),  // CA
    Instruction(CB, D8),  // CB
    Instruction(CALL, D16, NONE, NONE, CT_Z),  // CC
    Instruction(CALL, D16),  // CD
    Instruction(ADC, R_D8, A),  // CE
    Instruction(RST, IMP, NONE, NONE, CT_NONE, 0x08)  // CF
  ]

  /** Opcodes 0xD0-0xDF. */
  const RowD: seq<Instruction> := [
    Instruction(RET, IMP, NONE, NONE, CT_NC),  // D0
    Instruction(POP, R, DE),  // D1
    Instruction(JP, D16, NONE, NONE, CT_NC),  // D2
    Instruction(NOP),  // D3 (empty entry)
    Instruction(CALL, D16, NONE, NONE, CT_NC),  // D4
    Instruction(PUSH, R, DE),  // D5
    Instruction(SUB, R_D8, A),  // D6
    Instruction(RST, IMP, NONE, NONE, CT_NONE, 0x10),  // D7
    Instruction(RET, IMP, NONE, NONE, CT_C),  // D8
    Instruction(RETI),  // D9
    Instruction(JP, D16, NONE, NONE, CT_C),  // DA
    Instruction(NOP),  // DB (empty entry)
    Instruction(CALL, D16, NONE, NONE, CT_C),  // DC
    Instruction(NOP),  // DD (empty entry)
    Instruction(SBC, R_D8, A),  // DE
    Instruction(RST, IMP, NONE, NONE, CT_NONE, 0x18)  // DF
  ]

  /** Opcodes 0xE0-0xEF. */
  const RowE: seq<Instruction> := [
    Instruction(LDH, A8_R, NONE, A),  // E0
    Instruction(POP, R, HL),  // E1
    Instruction(LD, MR_R, C, A),  // E2
    Instruction(NOP),  // E3 (empty entry)
    Instruction(NOP),  // E4 (empty entry)
    Instruction(PUSH, R, HL),  // E5
    Instruction(AND, R_D8, A),  // E6
    Instruction(RST, IMP, NONE, NONE, CT_NONE, 0x20),  // E7
    Instruction(ADD, R_D8, SP),  // E8
    Instruction(JP, R, HL),  // E9
    Instruction(LD, A16_R, NONE, A),  // EA
    Instruction(NOP),  // EB (empty entry)
    Instruction(NOP),  // EC (empty entry)
    Instruction(NOP),  // ED (empty entry)
    Instruction(XOR, R_D8, A),  // EE
    Instruction(RST, IMP, NONE, NONE, CT_NONE, 0x28)  // EF
  ]

  /** Opcodes 0xF0-0xFF. */
  const RowF: seq<Instruction> := [
    Instruction(LDH, R_A8, A),  // F0
    Instruction(POP, R, AF),  // F1
    Instruction(LD, R_MR, A, C),  // F2
    Instruction(DI),  // F3
    Instruction(NOP),  // F4 (empty entry)
    Instruction(PUSH, R, AF),  // F5
    Instruction(OR, R_D8, A),  // F6
    Instruction(RST, IMP, NONE, NONE, CT_NONE, 0x30),  // F7
    Instruction(LD, HL_SPD, HL, SP),  // F8
    Instruction(LD, R_R, SP, HL),  // F9
    Instruction(LD, R_A16, A),  // FA
    Instruction(EI),  // FB
    Instruction(NOP),  // FC (empty entry)
    Instruction(NOP),  // FD (empty entry)
    Instruction(CP, R_D8, A),  // FE
    Instruction(RST, IMP, NONE, NONE, CT_NONE, 0x38)  // FF
  ]

  const Rows: seq<seq<Instruction>> :=
    [Row0, Row1, Row2, Row3, Row4, Row5, Row6, Row7, Row8, Row9, RowA, RowB, RowC, RowD, RowE, RowF]

  /** The number of entries in the table. */
  const TableSize: nat := 16 * 16

  /** The table entry for an opcode, None (a null pointer) past the end of the table. */
  function GetInstruction(opcode: u8): (r: Option<Instruction>)
    ensures r.Some?
  {
    if opcode >= TableSize then None
    else Some(Rows[opcode / 16][opcode % 16])
  }

  // ---------------------------------------------------------------------
  // Reference decoders for the regular parts of the table.
  // ---------------------------------------------------------------------

  /** The operand order {B, C, D, E, H, L, (HL), A} of the 3-bit register fields. */
  function Operand(k: nat): RegisterType
    requires k < 8
  {
    match k
    case 0 => B case 1 => C case 2 => D case 3 => E
    case 4 => H case 5 => L case 6 => HL case 7 => A
  }

  /** LD r, r' for 0x40-0x7F: destination (op >> 3) & 7, source op & 7. */
  function LdDecode(op: u8): Instruction
  {
    var dst := Operand((op / 8) % 8);
    var src := Operand(op % 8);
    if src == HL then Instruction(LD, R_MR, dst, HL)
    else if dst == HL then Instruction(LD, MR_R, HL, src)
    else Instruction(LD, R_R, dst, src)
  }

  /** The eight accumulator operations of 0x80-0xBF, by (op >> 3) & 7. */
  function AluOperation(k: nat): InstrType
    requires k < 8
  {
    match k
    case 0 => ADD case 1 => ADC case 2 => SUB case 3 => SBC
    case 4 => AND case 5 => XOR case 6 => OR case 7 => CP
  }

  /** op A, r for 0x80-0xBF. */
  function AluDecode(op: u8): Instruction
  {
    var kind := AluOperation((op / 8) % 8);
    var src := Operand(op % 8);
    if src == HL then Instruction(kind, R_MR, A, HL) else Instruction(kind, R_R, A, src)
  }

  /** The conditions NZ, Z, NC, C in the order the conditional opcodes use them. */
  function Condition(k: nat): CondType
    requires k < 4
  {
    match k
    case 0 => CT_NZ case 1 => CT_Z case 2 => CT_NC case 3 => CT_C
  }

  // ---------------------------------------------------------------------
  // Properties of the table.
  // ---------------------------------------------------------------------

  /** The table has 16 rows of 16 entries, so every u8 has an entry. */
  lemma TableShape()
    ensures |Rows| == 16 && TableSize == 256
    ensures forall i :: 0 <= i < 16 ==> |Rows[i]| == 16
  {
  }

  /** Opcodes 0x40-0x7F other than 0x76 are the register-to-register loads. */
  lemma LdBlock(op: u8)
    requires 0x40 <= op < 0x80 && op != 0x76
    ensures GetInstruction(op) == Some(LdDecode(op))
  {
    LdRow(op / 16, op % 16);
  }

  lemma LdRow(hi: nat, lo: nat)
    requires 4 <= hi < 8 && lo < 16 && hi * 16 + lo != 0x76
    ensures Rows[hi][lo] == LdDecode(hi * 16 + lo)
  {
    if hi == 4 { LdRow4(lo); }
    else if hi == 5 { LdRow5(lo); }
    else if hi == 6 { LdRow6(lo); }
    else { LdRow7(lo); }
  }

  lemma LdRow4(lo: nat) requires lo < 16 ensures Row4[lo] == LdDecode(0x40 + lo) { match lo case 0 => case 1 => case 2 => case 3 => case 4 => case 5 => case 6 => case 7 => case 8 => case 9 => case 10 => case 11 => case 12 => case 13 => case 14 => case 15 => }
  lemma LdRow5(lo: nat) requires lo < 16 ensures Row5[lo] == LdDecode(0x50 + lo) { match lo case 0 => case 1 => case 2 => case 3 => case 4 => case 5 => case 6 => case 7 => case 8 => case 9 => case 10 => case 11 => case 12 => case 13 => case 14 => case 15 => }
  lemma LdRow6(lo: nat) requires lo < 16 ensures Row6[lo] == LdDecode(0x60 + lo) { match lo case 0 => case 1 => case 2 => case 3 => case 4 => case 5 => case 6 => case 7 => case 8 => case 9 => case 10 => case 11 => case 12 => case 13 => case 14 => case 15 => }
  lemma LdRow7(lo: nat) requires lo < 16 && lo != 6 ensures Row7[lo] == LdDecode(0x70 + lo) { match lo case 0 => case 1 => case 2 => case 3 => case 4 => case 5 => case 7 => case 8 => case 9 => case 10 => case 11 => case 12 => case 13 => case 14 => case 15 => }

  /** 0x76, where LD (HL), (HL) would be, is HALT. */
  lemma HaltAt76()
    ensures GetInstruction(0x76) == Some(Instruction(HALT))
  {
  }

  /** Opcodes 0x80-0xBF are the accumulator operations on the eight operands. */
  lemma AluBlock(op: u8)
    requires 0x80 <= op < 0xC0
    ensures GetInstruction(op) == Some(AluDecode(op))
  {
    AluRow(op / 16, op % 16);
  }

  lemma AluRow(hi: nat, lo: nat)
    requires 8 <= hi < 12 && lo < 16
    ensures Rows[hi][lo] == AluDecode(hi * 16 + lo)
  {
    if hi == 8 { AluRow8(lo); }
    else if hi == 9 { AluRow9(lo); }
    else if hi == 10 { AluRowA(lo); }
    else { AluRowB(lo); }
  }

  lemma AluRow8(lo: nat) requires lo < 16 ensures Row8[lo] == AluDecode(0x80 + lo) { match lo case 0 => case 1 => case 2 => case 3 => case 4 => case 5 => case 6 => case 7 => case 8 => case 9 => case 10 => case 11 => case 12 => case 13 => case 14 => case 15 => }
  lemma AluRow9(lo: nat) requires lo < 16 ensures Row9[lo] == AluDecode(0x90 + lo) { match lo case 0 => case 1 => case 2 => case 3 => case 4 => case 5 => case 6 => case 7 => case 8 => case 9 => case 10 => case 11 => case 12 => case 13 => case 14 => case 15 => }
  lemma AluRowA(lo: nat) requires lo < 16 ensures RowA[lo] == AluDecode(0xA0 + lo) { match lo case 0 => case 1 => case 2 => case 3 => case 4 => case 5 => case 6 => case 7 => case 8 => case 9 => case 10 => case 11 => case 12 => case 13 => case 14 => case 15 => }
  lemma AluRowB(lo: nat) requires lo < 16 ensures RowB[lo] == AluDecode(0xB0 + lo) { match lo case 0 => case 1 => case 2 => case 3 => case 4 => case 5 => case 6 => case 7 => case 8 => case 9 => case 10 => case 11 => case 12 => case 13 => case 14 => case 15 => }

  /** The empty entries execute as NOP with implied addressing. */
  lemma UndefinedOpcodesAreNop(op: u8)
    requires op in {0xD3, 0xDB, 0xDD, 0xE3, 0xE4, 0xEB, 0xEC, 0xED, 0xF4, 0xFC, 0xFD}
    ensures GetInstruction(op) == Some(Instruction(NOP, IMP, NONE, NONE, CT_NONE, 0))
  {
  }

  /** RST at 0xC7 + 8k jumps to 8k, unconditionally. */
  lemma RstTargets(k: nat)
    requires k < 8
    ensures GetInstruction(0xC7 + 8 * k) == Some(Instruction(RST, IMP, NONE, NONE, CT_NONE, 8 * k))
  {
  }

  /** The conditional JR, RET, JP and CALL opcodes carry NZ, Z, NC, C in that order. */
  lemma ConditionOrder(k: nat)
    requires k < 4
    ensures GetInstruction(0x20 + 8 * k) == Some(Instruction(JR, D8, NONE, NONE, Condition(k)))
    ensures GetInstruction(0xC0 + 8 * k) == Some(Instruction(RET, IMP, NONE, NONE, Condition(k)))
    ensures GetInstruction(0xC2 + 8 * k) == Some(Instruction(JP, D16, NONE, NONE, Condition(k)))
    ensures GetInstruction(0xC4 + 8 * k) == Some(Instruction(CALL, D16, NONE, NONE, Condition(k)))
  {
    match k
    case 0 => case 1 => case 2 => case 3 =>
  }

  /** 0xCB is the prefix with an immediate byte; 0x01/0x11/0x21/0x31 load BC, DE, HL, SP. */
  lemma PrefixAndWordLoads(k: nat)
    requires k < 4
    ensures GetInstruction(0xCB) == Some(Instruction(CB, D8))
    ensures GetInstruction(0x01 + 0x10 * k) == Some(Instruction(LD, R_D16, [BC, DE, HL, SP][k]))
  {
  }
}
