/**
 * The CPU's register file as the CPU class holds it: eight byte registers,
 * the stack pointer and the program counter. Reading a pair joins two byte
 * registers high byte first; writing a pair splits the word the same way.
 */
module Registers {
  import opened Bits
  import opened Types

  /** The byte cells of the register file that a RegisterType names. */
  function Cells(t: RegisterType): set<RegisterType>
  {
    match t
    case AF => {A, F}
    case BC => {B, C}
    case DE => {D, E}
    case HL => {H, L}
    case NONE => {}
    case _ => {t}
  }

  /** `type >= RT_AF`: the register is 16 bits wide. */
  function IsWordSize(t: RegisterType): bool
  {
    RegOrd(t) >= RegOrd(AF)
  }

  /** The flag bits of F. */
  const ZeroBit: nat := 7
  const SubtractBit: nat := 6
  const HalfCarryBit: nat := 5
  const CarryBit: nat := 4

  /** The number SetFlags reads as "leave this flag alone". */
  const Keep: i8 := -1

  /** One step of SetFlags: -1 leaves bit k, 0 clears it, anything else sets it. */
  function ApplyFlag(f: u8, v: i8, k: nat): (r: u8)
    requires k < 8
  {
    SetBitInRange(f, k, 8);
    if v == Keep then f
    else if v != 0 then SetBit(f, k)
    else ClearBit(f, k)
  }

  /** SetFlags as the CPU class writes it: one SetFlag bit write per flag, Z first. */
  function SetFlagsBitwise(f: u8, z: i8, n: i8, hc: i8, cy: i8): u8
  {
    ApplyFlag(ApplyFlag(ApplyFlag(ApplyFlag(f, z, ZeroBit), n, SubtractBit), hc, HalfCarryBit), cy, CarryBit)
  }

  /** The value a flag has after a tri-state write of v over old_. */
  function Expected(old_: nat, v: i8): (r: nat)
    ensures old_ <= 1 ==> r <= 1
  {
    if v == Keep then old_ else if v != 0 then 1 else 0
  }

  /** The flag argument for a computed condition. */
  function Flag(b: bool): i8 { if b then 1 else 0 }

  datatype RegisterFile = RegisterFile(a: u8, f: u8, b: u8, c: u8, d: u8, e: u8, h: u8, l: u8, sp: u16, pc: u16)
  {
    function Read(t: RegisterType): u16
    {
      match t
      case A => a case F => f case B => b case C => c
      case D => d case E => e case H => h case L => l
      case AF => Join(a, f)
      case BC => Join(b, c)
      case DE => Join(d, e)
      case HL => Join(h, l)
      case SP => sp
      case PC => pc
      case NONE => 0
    }

    function Write(t: RegisterType, v: u16): RegisterFile
    {
      match t
      case A => this.(a := Lo(v))
      case F => this.(f := Lo(v))
      case B => this.(b := Lo(v))
      case C => this.(c := Lo(v))
      case D => this.(d := Lo(v))
      case E => this.(e := Lo(v))
      case H => this.(h := Lo(v))
      case L => this.(l := Lo(v))
      case AF => this.(a := Hi(v), f := Lo(v))
      case BC => this.(b := Hi(v), c := Lo(v))
      case DE => this.(d := Hi(v), e := Lo(v))
      case HL => this.(h := Hi(v), l := Lo(v))
      case SP => this.(sp := v)
      case PC => this.(pc := v)
      case NONE => this
    }

    /** Read, add one in 16 bits, write back. */
    function Increment(t: RegisterType): RegisterFile
    {
      Write(t, Wrap16(Read(t) + 1))
    }

    /** Read, subtract one in 16 bits, write back. */
    function Decrement(t: RegisterType): RegisterFile
    {
      Write(t, Wrap16(Read(t) - 1))
    }

    /** The flags are bits 7 (Z), 6 (N), 5 (H) and 4 (C) of F, each read as 0 or 1. */
    function GetZeroFlag(): (r: u8) ensures r <= 1 { (f / 0x80) % 2 }
    function GetSubtractionFlag(): (r: u8) ensures r <= 1 { (f / 0x40) % 2 }
    function GetHalfCarryFlag(): (r: u8) ensures r <= 1 { (f / 0x20) % 2 }
    function GetCarryFlag(): (r: u8) ensures r <= 1 { (f / 0x10) % 2 }

    /**
     * Z, N, H, C to bits 7, 6, 5, 4 of F; -1 leaves a flag as it is, 0
     * clears it, anything else sets it; bits 0-3 of F stay. Written as the
     * byte those four bit writes produce (SetFlagsIsBitwise).
     */
    function SetFlags(z: i8, n: i8, hc: i8, cy: i8): RegisterFile
    {
      this.(f := 0x80 * Expected(GetZeroFlag(), z) + 0x40 * Expected(GetSubtractionFlag(), n)
               + 0x20 * Expected(GetHalfCarryFlag(), hc) + 0x10 * Expected(GetCarryFlag(), cy) + f % 0x10)
    }
  }

  // ---------------------------------------------------------------------
  // Properties of the register file.
  // ---------------------------------------------------------------------

  /** IsWordSize holds exactly for AF, BC, DE, HL, SP and PC. */
  lemma IsWordSizeExactly(t: RegisterType)
    ensures IsWordSize(t) <==> t in {AF, BC, DE, HL, SP, PC}
    ensures !IsWordSize(t) ==> |Cells(t)| <= 1
  {
    WordRegistersAfterByteRegisters(t);
  }

  /** What Read returns after Write: the value masked to the register's width. */
  lemma ReadAfterWrite(rf: RegisterFile, t: RegisterType, v: u16)
    ensures t != NONE ==> rf.Write(t, v).Read(t) == if IsWordSize(t) then v else v % 0x100
    ensures rf.Read(NONE) == 0 && rf.Write(NONE, v) == rf
  {
    JoinSplit(v);
  }

  /** Writing a pair splits the word high byte first, and joining the halves gives it back. */
  lemma PairRoundTrip(rf: RegisterFile, v: u16)
    ensures var r := rf.Write(HL, v); r.Read(H) * 0x100 + r.Read(L) == v == r.Read(HL)
    ensures var r := rf.Write(BC, v); r.Read(B) * 0x100 + r.Read(C) == v == r.Read(BC)
    ensures var r := rf.Write(DE, v); r.Read(D) * 0x100 + r.Read(E) == v == r.Read(DE)
    ensures var r := rf.Write(AF, v); r.Read(A) * 0x100 + r.Read(F) == v == r.Read(AF)
  {
    JoinSplit(v);
  }

  /** Writing back what a byte write left in its register gives the same register file. */
  lemma WriteReadBack(rf: RegisterFile, t: RegisterType, v: u16)
    requires !IsWordSize(t)
    ensures rf.Write(t, rf.Write(t, v).Read(t)) == rf.Write(t, v)
  {
  }

  /** A write to PC or SP replaces that field and no other. */
  lemma WriteWordRegister(rf: RegisterFile, v: u16)
    ensures rf.Write(PC, v) == rf.(pc := v) && rf.Write(SP, v) == rf.(sp := v)
  {
  }

  /** Write changes only the cells it names: a register sharing no cell reads the same. */
  lemma WriteFrame(rf: RegisterFile, t: RegisterType, u: RegisterType, v: u16)
    requires Cells(t) !! Cells(u)
    ensures rf.Write(t, v).Read(u) == rf.Read(u)
  {
  }

  /** Increment and Decrement wrap at the register's width: 16 bits for a pair, SP and PC, 8 for the rest. */
  lemma IncrementDecrementWrap(rf: RegisterFile, t: RegisterType)
    requires t != NONE
    ensures IsWordSize(t) ==> rf.Increment(t).Read(t) == (rf.Read(t) + 1) % 0x1_0000
    ensures IsWordSize(t) ==> rf.Decrement(t).Read(t) == (rf.Read(t) - 1) % 0x1_0000
    ensures !IsWordSize(t) ==> rf.Increment(t).Read(t) == (rf.Read(t) + 1) % 0x100
    ensures !IsWordSize(t) ==> rf.Decrement(t).Read(t) == (rf.Read(t) - 1) % 0x100
  {
    if t in {AF, BC, DE, HL} {
      PairWrap(rf, t);
    } else if t in {SP, PC} {
      PointerWrap(rf, t);
    } else {
      ByteRegisterWrap(rf, t);
    }
  }

  lemma PairWrap(rf: RegisterFile, t: RegisterType)
    requires t in {AF, BC, DE, HL}
    ensures rf.Increment(t).Read(t) == (rf.Read(t) + 1) % 0x1_0000
    ensures rf.Decrement(t).Read(t) == (rf.Read(t) - 1) % 0x1_0000
  {
    var v: int := rf.Read(t);
    JoinSplit(Wrap16(v + 1));
    JoinSplit(Wrap16(v - 1));
  }

  lemma PointerWrap(rf: RegisterFile, t: RegisterType)
    requires t in {SP, PC}
    ensures rf.Increment(t).Read(t) == (rf.Read(t) + 1) % 0x1_0000
    ensures rf.Decrement(t).Read(t) == (rf.Read(t) - 1) % 0x1_0000
  {
  }

  lemma ByteRegisterWrap(rf: RegisterFile, t: RegisterType)
    requires t != NONE && !IsWordSize(t)
    ensures rf.Increment(t).Read(t) == (rf.Read(t) + 1) % 0x100
    ensures rf.Decrement(t).Read(t) == (rf.Read(t) - 1) % 0x100
  {
    ByteWrap(rf.Read(t));
  }

  /** For a byte v, wrapping v + 1 and v - 1 to 16 bits keeps their low byte. */
  lemma ByteWrap(v: int)
    requires 0 <= v < 0x100
    ensures Wrap16(v + 1) % 0x100 == (v + 1) % 0x100
    ensures Wrap16(v - 1) % 0x100 == (v - 1) % 0x100
  {
    if v == 0 {
      assert Wrap16(v - 1) == 0xFFFF;
    }
  }

  /** Increment and Decrement change no cell outside the register they name. */
  lemma IncrementDecrementFrame(rf: RegisterFile, t: RegisterType, u: RegisterType)
    requires Cells(t) !! Cells(u)
    ensures rf.Increment(t).Read(u) == rf.Read(u)
    ensures rf.Decrement(t).Read(u) == rf.Read(u)
  {
    WriteFrame(rf, t, u, Wrap16(rf.Read(t) + 1));
    WriteFrame(rf, t, u, Wrap16(rf.Read(t) - 1));
  }

  /** One flag write: bit k follows the tri-state argument and every other bit of F stays. */
  lemma ApplyFlagBits(f: u8, v: i8, k: nat, j: nat)
    requires k < 8 && j < 8
    ensures Bit(ApplyFlag(f, v, k), j) ==
              if j != k || v == Keep then Bit(f, j) else if v != 0 then 1 else 0
  {
    if v != Keep && v != 0 {
      SetBitBits(f, k, j);
    } else if v == 0 {
      ClearBitBits(f, k, j);
    }
  }

  lemma SetBitBits(f: u8, k: nat, j: nat)
    requires k < 8 && j < 8
    ensures Bit(SetBit(f, k), j) == if j == k then 1 else Bit(f, j)
  {
    SetBitBit(f, k, j);
  }

  lemma ClearBitBits(f: u8, k: nat, j: nat)
    requires k < 8 && j < 8
    ensures Bit(ClearBit(f, k), j) == if j == k then 0 else Bit(f, j)
  {
    ClearBitBit(f, k, j);
  }

  /** One flag write moves F by the difference between the new and the old bit k. */
  lemma ApplyFlagArith(f: u8, v: i8, k: nat)
    requires k < 8
    ensures ApplyFlag(f, v, k) == f + (Expected(Bit(f, k), v) - Bit(f, k)) * Pow2(k)
  {
  }

  /** A byte is its four high bits and its low nibble. */
  lemma HighBits(x: u8)
    ensures x == 0x80 * Bit(x, 7) + 0x40 * Bit(x, 6) + 0x20 * Bit(x, 5) + 0x10 * Bit(x, 4) + x % 0x10
  {
    FlagGetters(RegisterFile(0, x, 0, 0, 0, 0, 0, 0, 0, 0));
    HighDigits(x);
  }

  /** The same in division form: the quotients by 0x80, 0x40, 0x20 and 0x10, each taken mod 2. */
  lemma HighDigits(x: u8)
    ensures x == 0x80 * ((x / 0x80) % 2) + 0x40 * ((x / 0x40) % 2) + 0x20 * ((x / 0x20) % 2) + 0x10 * ((x / 0x10) % 2) + x % 0x10
  {
    var q := x / 0x10;
    assert x == 0x10 * q + x % 0x10;
    assert x / 0x20 == q / 2 && x / 0x40 == q / 4 && x / 0x80 == q / 8;
    NibbleDigits(q);
  }

  /** A nibble is the sum of its four binary digits. */
  lemma NibbleDigits(q: nat)
    requires q < 0x10
    ensures q == 8 * ((q / 8) % 2) + 4 * ((q / 4) % 2) + 2 * ((q / 2) % 2) + q % 2
  {
  }

  /** The four bit writes of SetFlag, one flag at a time, give the byte SetFlags computes. */
  lemma SetFlagsIsBitwise(rf: RegisterFile, z: i8, n: i8, hc: i8, cy: i8)
    ensures rf.SetFlags(z, n, hc, cy).f == SetFlagsBitwise(rf.f, z, n, hc, cy)
  {
    var f0 := rf.f;
    var f1 := ApplyFlag(f0, z, ZeroBit);
    var f2 := ApplyFlag(f1, n, SubtractBit);
    var f3 := ApplyFlag(f2, hc, HalfCarryBit);
    Pow2Values();
    ApplyFlagArith(f0, z, 7);
    ApplyFlagArith(f1, n, 6);
    ApplyFlagArith(f2, hc, 5);
    ApplyFlagArith(f3, cy, 4);
    ApplyFlagBits(f0, z, 7, 6);
    ApplyFlagBits(f0, z, 7, 5);
    ApplyFlagBits(f1, n, 6, 5);
    ApplyFlagBits(f0, z, 7, 4);
    ApplyFlagBits(f1, n, 6, 4);
    ApplyFlagBits(f2, hc, 5, 4);
    HighBits(f0);
    FlagGetters(rf);
  }

  /**
   * SetFlags is tri-state per flag (-1 keeps, 0 clears, nonzero sets), the
   * getters then read what was set, bits 0-3 of F never change, and no
   * register other than F does.
   */
  lemma SetFlagsTriState(rf: RegisterFile, z: i8, n: i8, hc: i8, cy: i8)
    ensures var r := rf.SetFlags(z, n, hc, cy);
      && r.GetZeroFlag() == Expected(rf.GetZeroFlag(), z)
      && r.GetSubtractionFlag() == Expected(rf.GetSubtractionFlag(), n)
      && r.GetHalfCarryFlag() == Expected(rf.GetHalfCarryFlag(), hc)
      && r.GetCarryFlag() == Expected(rf.GetCarryFlag(), cy)
      && r.f % 0x10 == rf.f % 0x10
      && r == rf.(f := r.f)
  {
    var a := Expected(rf.GetZeroFlag(), z);
    var b := Expected(rf.GetSubtractionFlag(), n);
    var c := Expected(rf.GetHalfCarryFlag(), hc);
    var d := Expected(rf.GetCarryFlag(), cy);
    var lo := rf.f % 0x10;
    var f := rf.SetFlags(z, n, hc, cy).f;
    assert f == 0x80 * a + 0x40 * b + 0x20 * c + 0x10 * d + lo;
    DivUnique(f, 0x80, a, 0x40 * b + 0x20 * c + 0x10 * d + lo);
    DivUnique(f, 0x40, 2 * a + b, 0x20 * c + 0x10 * d + lo);
    DivUnique(f, 0x20, 4 * a + 2 * b + c, 0x10 * d + lo);
    DivUnique(f, 0x10, 8 * a + 4 * b + 2 * c + d, lo);
  }

  /** The getters read exactly bits 7, 6, 5 and 4 of F; Z is set iff F is at least 0x80. */
  lemma FlagGetters(rf: RegisterFile)
    ensures rf.GetZeroFlag() == Bit(rf.f, ZeroBit)
    ensures rf.GetSubtractionFlag() == Bit(rf.f, SubtractBit)
    ensures rf.GetHalfCarryFlag() == Bit(rf.f, HalfCarryBit)
    ensures rf.GetCarryFlag() == Bit(rf.f, CarryBit)
    ensures rf.GetZeroFlag() == 1 <==> rf.f >= 0x80
  {
    Pow2Values();
    BitIsShift(rf.f, 7);
    assert Bit(rf.f, 7) == (rf.f / 0x80) % 2;
    BitIsShift(rf.f, 6);
    assert Bit(rf.f, 6) == (rf.f / 0x40) % 2;
    BitIsShift(rf.f, 5);
    assert Bit(rf.f, 5) == (rf.f / 0x20) % 2;
    BitIsShift(rf.f, 4);
    assert Bit(rf.f, 4) == (rf.f / 0x10) % 2;
    assert rf.f / 0x80 < 2;
  }

}
