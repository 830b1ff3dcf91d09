/**
 * The arithmetic the instruction handlers of cpu_proc.cpp perform on
 * values: the carry and borrow conditions behind the H and C flags, the
 * shifts and rotations of the accumulator and the CB table, the CB opcode
 * decode, and the decimal adjust. The handlers (module CpuProc) combine
 * these with the register file, the bus and the clock.
 */
module Alu {
  import opened Bits
  import opened Types
  import opened Registers
  import Instructions

  // ---------------------------------------------------------------------
  // Carry and borrow
  // ---------------------------------------------------------------------

  /** `(x & 0xF) + (y & 0xF) + carry > 0xF`: the H flag of ADD and ADC. */
  predicate HalfCarry(x: nat, y: nat, carry: nat) { x % 0x10 + y % 0x10 + carry > 0xF }

  /** `(x & 0xFF) + (y & 0xFF) + carry > 0xFF`: the C flag of ADD and ADC. */
  predicate Carry(x: nat, y: nat, carry: nat) { x % 0x100 + y % 0x100 + carry > 0xFF }

  /** `(x & 0xF) - (y & 0xF) - carry < 0`: the H flag of SUB, SBC and CP. */
  predicate HalfBorrow(x: nat, y: nat, carry: nat) { x % 0x10 - y % 0x10 - carry < 0 }

  /** `(x & 0xFF) - (y & 0xFF) - carry < 0`: the C flag of SUB and SBC. */
  predicate Borrow(x: nat, y: nat, carry: nat) { x % 0x100 - y % 0x100 - carry < 0 }

  // ---------------------------------------------------------------------
  // Shifts and rotations
  // ---------------------------------------------------------------------

  /** A shifted byte and the bit shifted out of it, which becomes the C flag. */
  datatype Shifted = Shifted(value: u8, bit: u8)

  /** `(v << 1) | ((v & 0x80) > 0)`: rotate left, bit 7 into bit 0 and C (RLC, RLCA). */
  function Rlc(v: u8): Shifted
  {
    var b := if v >= 0x80 then 1 else 0;
    Shifted((2 * v + b) % 0x100, b)
  }

  /** `(v >> 1) | ((v & 1) << 7)`: rotate right, bit 0 into bit 7 and C (RRC, RRCA). */
  function Rrc(v: u8): Shifted
  {
    var b := v % 2;
    Shifted(v / 2 + 0x80 * b, b)
  }

  /** `(v << 1) | carry`: rotate left through the carry (RL, RLA). */
  function Rl(v: u8, carry: u8): Shifted
    requires carry <= 1
  {
    Shifted((2 * v + carry) % 0x100, if v >= 0x80 then 1 else 0)
  }

  /** `(v >> 1) | (carry << 7)`: rotate right through the carry (RR, RRA). */
  function Rr(v: u8, carry: u8): Shifted
    requires carry <= 1
  {
    Shifted(v / 2 + 0x80 * carry, v % 2)
  }

  /** `v << 1`: shift left, bit 7 into C (SLA). */
  function Sla(v: u8): Shifted
  {
    Shifted((2 * v) % 0x100, if v >= 0x80 then 1 else 0)
  }

  /** `(v >> 1) | (v & 0x80)`: shift right keeping bit 7, bit 0 into C (SRA). */
  function Sra(v: u8): Shifted
  {
    Shifted(v / 2 + (if v >= 0x80 then 0x80 else 0), v % 2)
  }

  /** `((v & 0x0F) << 4) | ((v & 0xF0) >> 4)`: exchange the nibbles (SWAP). */
  function Swap(v: u8): u8
  {
    (v % 0x10) * 0x10 + v / 0x10
  }

  /** `v >> 1`: shift right, bit 0 into C (SRL). */
  function Srl(v: u8): Shifted
  {
    Shifted(v / 2, v % 2)
  }

  // ---------------------------------------------------------------------
  // The CB table
  // ---------------------------------------------------------------------

  /** `u8 CB_opcode = fetched_data >> 3` */
  function CbOpcode(fetched: u16): u8
  {
    (fetched / 8) % 0x100
  }

  /** `(fetched_data >> 3) & 0b111`, the bit BIT, RES and SET work on. */
  function CbBitIndex(fetched: u16): (k: nat)
    ensures k < 8
  {
    (fetched / 8) % 8
  }

  /** `rt_lookup[fetched_data & 0b111]` */
  function CbOperand(fetched: u16): RegisterType
  {
    Instructions.Operand(fetched % 8)
  }

  /**
   * The CB operation: `IN_RLC + CB_opcode` below 8, otherwise
   * `IN_BIT + (CB_opcode >> 3) - 1`; a value past the last enumerator names
   * no operation.
   */
  function CbKind(fetched: u16): Option<InstrType>
  {
    var op := CbOpcode(fetched);
    if op < 8 then InstrFromOrd(InstrOrd(RLC) + op)
    else InstrFromOrd(InstrOrd(BIT) + op / 8 - 1)
  }

  /** What a CB operation does with its operand: store a new value (and maybe set flags), or only test a bit. */
  datatype CbEffect =
    | Store(value: u8, setsFlags: bool, zero: bool, bit: u8)
    | Test(zero: bool)

  /** A shift's effect: the new value, with Z from it and C from the bit shifted out. */
  function Shift(r: Shifted): CbEffect
  {
    Store(r.value, true, r.value == 0, r.bit)
  }

  /** `value & (1 << bit)` is zero: the test of BIT. */
  predicate BitClear(v: u8, k: nat)
    requires k < 8
  {
    Pow2Values();
    AndSingleBit(v, k, 8);
    Bitwise(AndOp, v, Pow2(k), 8) == 0
  }

  /** `value & ~(1 << bit)`: RES. */
  function ResetBit(v: u8, k: nat): u8
    requires k < 8
  {
    ClearBit(v, k)
  }

  /** `value | (1 << bit)`: SET. */
  function SetBitOf(v: u8, k: nat): u8
    requires k < 8
  {
    Pow2Values();
    SetBitInRange(v, k, 8);
    SetBit(v, k)
  }

  /**
   * The switch on the CB operation for the operand value `v`, the carry
   * flag and the bit index; None is the NO_IMPL default.
   */
  function CbCompute(kind: InstrType, v: u8, carry: u8, k: nat): Option<CbEffect>
    requires carry <= 1 && k < 8
  {
    match kind
    case RLC => Some(Shift(Rlc(v)))
    case RRC => Some(Shift(Rrc(v)))
    case RL => Some(Shift(Rl(v, carry)))
    case RR => Some(Shift(Rr(v, carry)))
    case SLA => Some(Shift(Sla(v)))
    case SRA => Some(Shift(Sra(v)))
    case SWAP => Some(Store(Swap(v), true, Swap(v) == 0, 0))
    case SRL => Some(Shift(Srl(v)))
    case BIT => Some(Test(BitClear(v, k)))
    case RES => Some(Store(ResetBit(v, k), false, false, 0))
    case SET => Some(Store(SetBitOf(v, k), false, false, 0))
    case _ => None
  }

  // ---------------------------------------------------------------------
  // Decimal adjust
  // ---------------------------------------------------------------------

  /** The correction DAA applies: 0x06 for the low digit, 0x60 for the high one. */
  function DaaCorrection(a: u8, sub: bool, half: bool, carry: bool): nat
  {
    (if half || (!sub && a % 0x10 > 9) then 0x06 else 0)
    + (if carry || (!sub && a > 0x99) then 0x60 else 0)
  }

  /** `(reg_a + (subFlag ? -correction : correction)) & 0xFF` */
  function DaaResult(a: u8, sub: bool, half: bool, carry: bool): u8
  {
    var corr := DaaCorrection(a, sub, half, carry);
    (if sub then a - corr else a + corr) % 0x100
  }

  /** The C flag DAA sets: on a high-digit correction. */
  predicate DaaCarry(a: u8, sub: bool, carry: bool)
  {
    carry || (!sub && a > 0x99)
  }

  // ---------------------------------------------------------------------
  // Properties
  // ---------------------------------------------------------------------

  /**
   * On bytes, ADD/ADC's C flag is the ninth bit of the exact sum and the
   * byte result the rest; H is the carry out of the low nibble.
   */
  lemma AddExact(x: u8, y: u8, carry: nat)
    requires carry <= 1
    ensures x + y + carry == (x + y + carry) % 0x100 + 0x100 * BoolToInt(Carry(x, y, carry))
    ensures x % 0x10 + y % 0x10 + carry == (x % 0x10 + y % 0x10 + carry) % 0x10 + 0x10 * BoolToInt(HalfCarry(x, y, carry))
  {
  }

  /**
   * On bytes, SUB/SBC's C flag is the borrow the exact difference needs to
   * reach the byte result; H is the borrow of the low nibble.
   */
  lemma SubExact(x: u8, y: u8, carry: nat)
    requires carry <= 1
    ensures x - y - carry == (x - y - carry) % 0x100 - 0x100 * BoolToInt(Borrow(x, y, carry))
    ensures x % 0x10 - y % 0x10 - carry == (x % 0x10 - y % 0x10 - carry) % 0x10 - 0x10 * BoolToInt(HalfBorrow(x, y, carry))
  {
  }

  /** Bit 4 is the parity of the high nibble. */
  lemma Bit4(x: nat)
    ensures Bit(x, 4) == (x / 16) % 2
  {
    BitIsShift(x, 4);
    Pow2Values();
  }

  /** The high nibble of a byte sum: the nibble sums plus the low carry, wrapped at 16. */
  lemma SumHighNibble(x: u8, y: u8, carry: nat)
    requires carry <= 1
    ensures ((x + y + carry) % 0x100) / 16 == (x / 16 + y / 16 + BoolToInt(HalfCarry(x, y, carry))) % 16
  {
    var lc := BoolToInt(HalfCarry(x, y, carry));
    var q := x / 16 + y / 16 + lc;
    var r := x % 16 + y % 16 + carry - 16 * lc;
    var w := if q >= 16 then 1 else 0;
    DivUnique(x + y + carry, 0x100, w, 16 * (q - 16 * w) + r);
    DivUnique((x + y + carry) % 0x100, 16, q - 16 * w, r);
    DivUnique(q, 16, w, q - 16 * w);
  }

  /** The high nibble of a byte difference: the nibble difference less the low borrow, wrapped at 16. */
  lemma DiffHighNibble(x: u8, y: u8, carry: nat)
    requires carry <= 1
    ensures ((x - y - carry) % 0x100) / 16 == (x / 16 - y / 16 - BoolToInt(HalfBorrow(x, y, carry))) % 16
  {
    var b := BoolToInt(HalfBorrow(x, y, carry));
    var q := x / 16 - y / 16 - b;
    var r := x % 16 - y % 16 - carry + 16 * b;
    var w := if q < 0 then 1 else 0;
    DivUnique(x - y - carry, 0x100, -w, 16 * (q + 16 * w) + r);
    DivUnique((x - y - carry) % 0x100, 16, q + 16 * w, r);
    DivUnique(q, 16, -w, q + 16 * w);
  }

  /** Bit 4 of a sum: bit 4 of each operand and the carry out of the low nibble, exclusive-ored. */
  lemma SumBit4(x: u8, y: u8, carry: nat)
    requires carry <= 1
    ensures Bit((x + y + carry) % 0x100, 4) == 1 <==> ((Bit(x, 4) == 1) != (Bit(y, 4) == 1)) != HalfCarry(x, y, carry)
  {
    SumBit4Parity(x, y, carry);
    ParityBool(Bit(x, 4), Bit(y, 4), BoolToInt(HalfCarry(x, y, carry)));
  }

  /** Bit 4 of a difference: bit 4 of each operand and the borrow of the low nibble, exclusive-ored. */
  lemma DiffBit4(x: u8, y: u8, carry: nat)
    requires carry <= 1
    ensures Bit((x - y - carry) % 0x100, 4) == 1 <==> ((Bit(x, 4) == 1) != (Bit(y, 4) == 1)) != HalfBorrow(x, y, carry)
  {
    DiffBit4Parity(x, y, carry);
    ParityBool(Bit(x, 4), Bit(y, 4), BoolToInt(HalfBorrow(x, y, carry)));
  }

  /** SumBit4 as a parity. */
  lemma SumBit4Parity(x: u8, y: u8, carry: nat)
    requires carry <= 1
    ensures Bit((x + y + carry) % 0x100, 4) == (Bit(x, 4) + Bit(y, 4) + BoolToInt(HalfCarry(x, y, carry))) % 2
  {
    var lc := BoolToInt(HalfCarry(x, y, carry));
    var q := x / 16 + y / 16 + lc;
    SumHighNibble(x, y, carry);
    Bit4((x + y + carry) % 0x100);
    Bit4(x);
    Bit4(y);
    Parity(q % 16, 8 * (q / 16));
    ParitySum(x / 16, y / 16, lc);
  }

  /** DiffBit4 as a parity. */
  lemma DiffBit4Parity(x: u8, y: u8, carry: nat)
    requires carry <= 1
    ensures Bit((x - y - carry) % 0x100, 4) == (Bit(x, 4) + Bit(y, 4) + BoolToInt(HalfBorrow(x, y, carry))) % 2
  {
    var b := BoolToInt(HalfBorrow(x, y, carry));
    var q := x / 16 - y / 16 - b;
    DiffHighNibble(x, y, carry);
    Bit4((x - y - carry) % 0x100);
    Bit4(x);
    Bit4(y);
    Parity(q % 16, 8 * (q / 16));
    Parity(q, y / 16 + b);
    ParitySum(x / 16, y / 16, b);
  }

  /** Parities of sums of bits, as exclusive or. */
  lemma ParityBool(a: nat, b: nat, c: nat)
    requires a < 2 && b < 2 && c < 2
    ensures ((a + b + c) % 2 == 1) <==> (((a == 1) != (b == 1)) != (c == 1))
    ensures ((a + b) % 2 == 1) <==> ((a == 1) != (b == 1))
  {
  }

  /** Bit 4 of an XOR is set when exactly one of the two bits 4 is. */
  lemma XorBit4(a: u8, b: u8)
    ensures Bit(Xor8(a, b), 4) == 1 <==> (Bit(a, 4) == 1) != (Bit(b, 4) == 1)
  {
    Pow2Values();
    BitwiseBit(XorOp, a, b, 8, 4);
    ParityBool(Bit(a, 4), Bit(b, 4), 0);
  }

  /**
   * The textbook reading of H: it is the carry into bit 4, bit 4 of
   * `x ^ y ^ (x + y + carry)`.
   */
  lemma HalfCarryIsCarryIntoBit4(x: u8, y: u8, carry: nat)
    requires carry <= 1
    ensures HalfCarry(x, y, carry) <==> Bit(Xor8(Xor8(x, y), (x + y + carry) % 0x100), 4) == 1
  {
    XorBit4(x, y);
    XorBit4(Xor8(x, y), (x + y + carry) % 0x100);
    SumBit4(x, y, carry);
  }

  /** And for subtraction: H is the borrow out of bit 4, bit 4 of `x ^ y ^ (x - y - carry)`. */
  lemma HalfBorrowIsBorrowFromBit4(x: u8, y: u8, carry: nat)
    requires carry <= 1
    ensures HalfBorrow(x, y, carry) <==> Bit(Xor8(Xor8(x, y), (x - y - carry) % 0x100), 4) == 1
  {
    XorBit4(x, y);
    XorBit4(Xor8(x, y), (x - y - carry) % 0x100);
    DiffBit4(x, y, carry);
  }

  /** RLC and RRC undo each other, and both put the bit that wrapped around into C. */
  lemma RotateInverse(v: u8)
    ensures Rrc(Rlc(v).value) == Shifted(v, Rlc(v).bit)
    ensures Rlc(Rrc(v).value) == Shifted(v, Rrc(v).bit)
    ensures Rlc(v).value % 2 == Rlc(v).bit && Rrc(v).value / 0x80 == Rrc(v).bit
  {
    var b := Rlc(v).bit;
    var w := Rlc(v).value;
    DivUnique(2 * v + b, 0x100, b, 2 * v - 0xFF * b);
    DivUnique(w, 2, v - 0x80 * b, b);
    var c := v % 2;
    DivUnique(v, 2, v / 2, c);
    DivUnique(2 * (v / 2 + 0x80 * c) + c, 0x100, c, v);
    DivUnique(v / 2 + 0x80 * c, 0x80, c, v / 2);
  }

  /** RL and RR through the carry undo each other: value and carry come back. */
  lemma RotateThroughCarryInverse(v: u8, carry: u8)
    requires carry <= 1
    ensures Rr(Rl(v, carry).value, Rl(v, carry).bit) == Shifted(v, carry)
    ensures Rl(Rr(v, carry).value, Rr(v, carry).bit) == Shifted(v, carry)
  {
    var b: int := Rl(v, carry).bit;
    var x: int := v;
    DivUnique(2 * x + carry, 0x100, b, 2 * x + carry - 0x100 * b);
    DivUnique(2 * x + carry - 0x100 * b, 2, x - 0x80 * b, carry);
    var c := v % 2;
    DivUnique(v, 2, v / 2, c);
    DivUnique(2 * (v / 2 + 0x80 * carry) + c, 0x100, carry, v);
  }

  /**
   * SLA doubles and SRL halves exactly, the shifted-out bit making up the
   * difference; SRA halves the signed value, rounding down.
   */
  lemma ShiftArithmetic(v: u8)
    ensures Sla(v).value + 0x100 * Sla(v).bit == 2 * v
    ensures 2 * Srl(v).value + Srl(v).bit == v
    ensures ToI8(Sra(v).value) == ToI8(v) / 2 && Sra(v).bit == v % 2
    ensures Srl(Sla(v).value).value == v % 0x80
  {
  }

  /** SWAP exchanges the nibbles, so swapping twice is the identity. */
  lemma SwapNibbles(v: u8)
    ensures Swap(v) / 0x10 == v % 0x10 && Swap(v) % 0x10 == v / 0x10
    ensures Swap(Swap(v)) == v
  {
  }

  /** The opcode's bits 3 to 7 as CbOpcode sees them: for a byte, nothing wraps. */
  lemma CbOpcodeOfByte(op: u16)
    requires op < 0x100
    ensures CbOpcode(op) == op / 8 && CbOpcode(op) / 8 == op / 0x40
    ensures CbBitIndex(op) == CbOpcode(op) % 8
  {
    DivUnique(op / 8, 0x100, 0, op / 8);
    DivUnique(op, 0x40, op / 0x40, op % 0x40);
    DivUnique(op, 0x40, (op / 8) / 8, op % 8 + 8 * ((op / 8) % 8));
  }

  /**
   * The CB decode of an opcode byte: the operand is {B, C, D, E, H, L,
   * (HL), A}[op & 7]; below 0x40 the operation is the (op >> 3)-th shift
   * RLC..SRL; from 0x40 it is BIT, RES or SET by op >> 6, on bit
   * (op >> 3) & 7. So no opcode byte reaches the NO_IMPL default.
   */
  lemma CbDecode(op: u16)
    requires op < 0x100
    ensures CbOperand(op) == Instructions.Operand(op % 8)
    ensures op < 0x40 ==> CbKind(op) == Some(CbShiftKind(op / 8))
    ensures op >= 0x40 ==> CbKind(op) == Some(CbBitKind(op / 0x40 - 1))
    ensures CbBitIndex(op) == (op / 8) % 8
  {
    CbOpcodeOfByte(op);
    if op < 0x40 {
      CbShiftsContiguous(op / 8);
    } else {
      CbBitOpsContiguous(op / 0x40 - 1);
    }
  }

  /** The eleven CB operations, for which CbCompute is defined. */
  predicate IsCbKind(kind: InstrType)
  {
    kind in {RLC, RRC, RL, RR, SLA, SRA, SWAP, SRL, BIT, RES, SET}
  }

  /** CbCompute reaches the NO_IMPL default exactly for a kind outside the CB table. */
  lemma CbComputeDefined(kind: InstrType, v: u8, carry: u8, k: nat)
    requires carry <= 1 && k < 8
    ensures CbCompute(kind, v, carry, k).Some? <==> IsCbKind(kind)
  {
  }

  /** BIT's test holds exactly when the tested bit is clear. */
  lemma BitClearIsBit(v: u8, k: nat)
    requires k < 8
    ensures BitClear(v, k) <==> Bit(v, k) == 0
  {
    Pow2Values();
    AndSingleBit(v, k, 8);
    BitTimesPositive(Bit(v, k), Pow2(k));
  }

  /** BIT sets Z exactly when the tested bit is clear, and stores nothing. */
  lemma CbBitTest(v: u8, carry: u8, k: nat)
    requires carry <= 1 && k < 8
    ensures CbCompute(BIT, v, carry, k) == Some(Test(Bit(v, k) == 0))
  {
    BitClearIsBit(v, k);
  }

  /** SET changes only the bit it names, to 1, and leaves the flags alone. */
  lemma CbSetBit(v: u8, carry: u8, k: nat, j: nat)
    requires carry <= 1 && k < 8 && j < 8
    ensures var e := CbCompute(SET, v, carry, k).value;
      e.Store? && !e.setsFlags && Bit(e.value, j) == if j == k then 1 else Bit(v, j)
  {
    SetBitBit(v, k, j);
  }

  /** RES changes only the bit it names, to 0, and leaves the flags alone. */
  lemma CbResetBit(v: u8, carry: u8, k: nat, j: nat)
    requires carry <= 1 && k < 8 && j < 8
    ensures var e := CbCompute(RES, v, carry, k).value;
      e.Store? && !e.setsFlags && Bit(e.value, j) == if j == k then 0 else Bit(v, j)
  {
    ClearBitBit(v, k, j);
  }

  /** The DAA correction is one of 0x00, 0x06, 0x60 and 0x66; C is set exactly with the 0x60 part. */
  lemma DaaCorrectionValues(a: u8, sub: bool, half: bool, carry: bool)
    ensures DaaCorrection(a, sub, half, carry) in {0x00, 0x06, 0x60, 0x66}
    ensures DaaCarry(a, sub, carry) <==> DaaCorrection(a, sub, half, carry) >= 0x60
  {
  }

  /** A byte holding two decimal digits. */
  predicate IsBcd(x: u8) { x / 0x10 <= 9 && x % 0x10 <= 9 }

  /** The number two decimal digits denote. */
  function BcdValue(x: u8): nat { 10 * (x / 0x10) + x % 0x10 }

  /** The tens of n, counted by repeated subtraction. */
  function Tens(n: nat): (r: nat)
    ensures 10 * r <= n < 10 * r + 10
  {
    if n < 10 then 0 else 1 + Tens(n - 10)
  }

  /** The two decimal digits of a number below 100, as a BCD byte. */
  function ToBcd(n: nat): u8
    requires n < 100
  {
    16 * Tens(n) + (n - 10 * Tens(n))
  }

  /** ToBcd gives the BCD byte that denotes n. */
  lemma ToBcdDenotes(n: nat)
    requires n < 100
    ensures IsBcd(ToBcd(n)) && BcdValue(ToBcd(n)) == n
  {
    DivUnique(ToBcd(n), 16, Tens(n), n - 10 * Tens(n));
  }

  /**
   * DAA does what it is for: after ADD of two BCD bytes (which leaves N
   * clear and sets H and C as it does), A holds the BCD digits of the
   * decimal sum modulo 100, and C is set exactly when the sum reached 100.
   */
  lemma DaaAfterBcdAdd(x: u8, y: u8)
    requires IsBcd(x) && IsBcd(y)
    ensures var sum := (x + y) % 0x100;
      var total := BcdValue(x) + BcdValue(y);
      DaaResult(sum, false, HalfCarry(x, y, 0), Carry(x, y, 0)) == ToBcd(total % 100)
      && (DaaCarry(sum, false, Carry(x, y, 0)) <==> total >= 100)
  {
    var hi, lo := x / 16 + y / 16, x % 16 + y % 16;
    var carry := Carry(x, y, 0);
    assert x + y == 16 * hi + lo;
    DivUnique(x + y, 0x100, if carry then 1 else 0, x + y - (if carry then 0x100 else 0));
    DaaDigits(hi, lo, (x + y) % 0x100, carry);
  }

  /** A decimal number 10 * h + l (l a digit, h at most 19) modulo 100, and its BCD byte. */
  lemma DecimalDigits(h: nat, l: nat)
    requires h <= 19 && l <= 9
    ensures (10 * h + l) % 100 == 10 * (if h >= 10 then h - 10 else h) + l
    ensures ToBcd((10 * h + l) % 100) == 16 * (if h >= 10 then h - 10 else h) + l
  {
    var hd := if h >= 10 then h - 10 else h;
    DivUnique(10 * h + l, 100, if h >= 10 then 1 else 0, 10 * hd + l);
    assert Tens(10 * hd + l) == hd;
  }

  /**
   * The correction DAA picks for the byte sum of nibble sums hi and lo:
   * the low digit needs it from 10 on, the high digit once the decimal
   * carry out of the low digit brings it to 10.
   */
  lemma DaaSumCorrection(hi: nat, lo: nat, sum: u8, carry: bool)
    requires hi <= 18 && lo <= 18
    requires sum == 16 * hi + lo - (if carry then 0x100 else 0) && (carry <==> 16 * hi + lo > 0xFF)
    ensures DaaCorrection(sum, false, lo >= 16, carry) ==
      (if lo >= 10 then 6 else 0) + (if hi + (if lo >= 10 then 1 else 0) >= 10 then 0x60 else 0)
    ensures DaaCarry(sum, false, carry) <==> hi + (if lo >= 10 then 1 else 0) >= 10
  {
    if lo < 16 {
      DivUnique(sum, 16, hi - (if carry then 16 else 0), lo);
    }
  }

  /** The corrected byte: the sum plus the correction, less the 0x100 the byte drops. */
  lemma DaaWrap(sum: u8, corr: nat, h2: nat, l2: nat, carry: bool)
    requires h2 <= 19 && l2 <= 9 && (carry ==> h2 >= 10)
    requires sum + corr == 16 * h2 + l2 - (if carry then 0x100 else 0) + (if h2 >= 10 then 0x60 else 0)
    ensures (sum + corr) % 0x100 == 16 * (if h2 >= 10 then h2 - 10 else h2) + l2
  {
    var hd := if h2 >= 10 then h2 - 10 else h2;
    DivUnique(sum + corr, 0x100, if h2 >= 10 && !carry then 1 else 0, 16 * hd + l2);
  }

  /** DaaAfterBcdAdd on the nibble sums hi and lo of the two operands. */
  lemma DaaDigits(hi: nat, lo: nat, sum: u8, carry: bool)
    requires hi <= 18 && lo <= 18
    requires sum == 16 * hi + lo - (if carry then 0x100 else 0) && (carry <==> 16 * hi + lo > 0xFF)
    ensures DaaResult(sum, false, lo >= 16, carry) == ToBcd((10 * hi + lo) % 100)
    ensures DaaCarry(sum, false, carry) <==> 10 * hi + lo >= 100
  {
    // After the low-digit correction the decimal digits are h2 and l2.
    var d := if lo >= 10 then 1 else 0;
    var h2, l2 := hi + d, lo - 10 * d;
    DecimalDigits(h2, l2);
    DaaSumCorrection(hi, lo, sum, carry);
    DaaWrap(sum, DaaCorrection(sum, false, lo >= 16, carry), h2, l2, carry);
  }
}
