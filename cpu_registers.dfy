/**
 * The stand-alone register struct CPU_Registers: the same register file as
 * the CPU's own, held in mutable fields. Its SetFlag takes the flag value as
 * an unsigned byte, so the "-1 leaves the flag" convention of SetFlags is
 * lost: -1 arrives as 255 and sets the flag.
 */
module CpuRegisters {
  import opened Bits
  import opened Types
  import Registers

  /** SetFlag(value, k) as written: `value != -1` compares a u8 with an int and always holds. */
  function SetFlagU8(f: u8, value: u8, k: nat): (r: u8)
    requires k < 8
  {
    SetBitInRange(f, k, 8);
    if value as int != -1 then
      if value != 0 then SetBit(f, k) else ClearBit(f, k)
    else f
  }

  /** SetFlags as written: each i8 argument is converted to u8 before SetFlag sees it. */
  function SetFlagsU8(f: u8, z: i8, n: i8, hc: i8, cy: i8): u8
  {
    SetFlagU8(SetFlagU8(SetFlagU8(SetFlagU8(f, I8ToU8(z), 7), I8ToU8(n), 6), I8ToU8(hc), 5), I8ToU8(cy), 4)
  }

  class CpuRegisters {
    var a: u8
    var f: u8
    var b: u8
    var c: u8
    var d: u8
    var e: u8
    var h: u8
    var l: u8
    var sp: u16
    var pc: u16

    /** The register file these fields hold. */
    function View(): Registers.RegisterFile
      reads this
    {
      Registers.RegisterFile(a, f, b, c, d, e, h, l, sp, pc)
    }

    constructor (init: Registers.RegisterFile)
      ensures View() == init
    {
      a, f, b, c, d, e, h, l, sp, pc := init.a, init.f, init.b, init.c, init.d, init.e, init.h, init.l, init.sp, init.pc;
    }

    function Read(t: RegisterType): (r: u16)
      reads this
      ensures r == View().Read(t)
      ensures !Registers.IsWordSize(t) ==> r < 0x100
    {
      match t
      case A => a case F => f case B => b case C => c
      case D => d case E => e case H => h case L => l
      case AF => a * 0x100 + f
      case BC => b * 0x100 + c
      case DE => d * 0x100 + e
      case HL => h * 0x100 + l
      case SP => sp
      case PC => pc
      case NONE => 0
    }

    method Write(t: RegisterType, v: u16)
      modifies this
      ensures View() == old(View()).Write(t, v)
    {
      match t {
        case A => a := v % 0x100;
        case F => f := v % 0x100;
        case B => b := v % 0x100;
        case C => c := v % 0x100;
        case D => d := v % 0x100;
        case E => e := v % 0x100;
        case H => h := v % 0x100;
        case L => l := v % 0x100;
        case AF => a := v / 0x100; f := v % 0x100;
        case BC => b := v / 0x100; c := v % 0x100;
        case DE => d := v / 0x100; e := v % 0x100;
        case HL => h := v / 0x100; l := v % 0x100;
        case SP => sp := v;
        case PC => pc := v;
        case NONE =>
      }
    }

    method Increment(t: RegisterType)
      modifies this
      ensures View() == old(View()).Increment(t)
    {
      var current: int := Read(t);
      var next := Wrap16(current + 1);
      Write(t, next);
    }

    method Decrement(t: RegisterType)
      modifies this
      ensures View() == old(View()).Decrement(t)
    {
      var current: int := Read(t);
      var next := Wrap16(current - 1);
      Write(t, next);
    }

    /** PC++ on a u16: wraps from 0xFFFF to 0, and nothing but PC changes. */
    method IncrementPC()
      modifies this
      ensures View() == old(View()).(pc := (old(pc) + 1) % 0x1_0000)
      ensures View() == old(View()).Increment(PC)
    {
      pc := Wrap16(pc + 1);
    }

    method SetPC(v: u16)
      modifies this
      ensures View() == old(View()).Write(PC, v)
    {
      pc := v;
    }

    function GetPC(): (r: u16)
      reads this
      ensures r == View().Read(PC)
    {
      pc
    }

    static function IsWordSize(t: RegisterType): (r: bool)
      ensures r <==> t in {AF, BC, DE, HL, SP, PC}
    {
      Registers.IsWordSizeExactly(t);
      RegOrd(t) >= RegOrd(AF)
    }

    function GetZeroFlag(): (r: u8)
      reads this
      ensures r == View().GetZeroFlag()
    {
      Bit(f, 7)
    }

    function GetSubtractionFlag(): (r: u8)
      reads this
      ensures r == View().GetSubtractionFlag()
    {
      Bit(f, 6)
    }

    function GetHalfCarryFlag(): (r: u8)
      reads this
      ensures r == View().GetHalfCarryFlag()
    {
      Bit(f, 5)
    }

    function GetCarryFlag(): (r: u8)
      reads this
      ensures r == View().GetCarryFlag()
    {
      Bit(f, 4)
    }

    method SetFlags(z: i8, n: i8, hc: i8, cy: i8)
      modifies this
      ensures View() == old(View()).(f := SetFlagsU8(old(f), z, n, hc, cy))
    {
      SetFlag(I8ToU8(z), 7);
      SetFlag(I8ToU8(n), 6);
      SetFlag(I8ToU8(hc), 5);
      SetFlag(I8ToU8(cy), 4);
    }

    method SetFlag(value: u8, bitOffset: u8)
      requires bitOffset < 8
      modifies this
      ensures View() == old(View()).(f := SetFlagU8(old(f), value, bitOffset))
    {
      SetBitInRange(f, bitOffset, 8);
      if value as int != -1 {
        if value != 0 {
          f := SetBit(f, bitOffset);
        } else {
          f := ClearBit(f, bitOffset);
        }
      }
    }
  }

  /**
   * The u8 parameter loses "leave unchanged": SetFlags(-1, -1, -1, -1) sets
   * all four flags here, while the register file of the CPU keeps them.
   */
  lemma SetFlagsKeepIsLost(f: u8, j: nat)
    requires j < 8
    ensures Bit(SetFlagsU8(f, Registers.Keep, Registers.Keep, Registers.Keep, Registers.Keep), j) ==
              if j >= 4 then 1 else Bit(f, j)
    ensures Registers.RegisterFile(0, f, 0, 0, 0, 0, 0, 0, 0, 0).SetFlags(Registers.Keep, Registers.Keep, Registers.Keep, Registers.Keep).f == f
  {
    var f1 := SetFlagU8(f, 255, 7);
    var f2 := SetFlagU8(f1, 255, 6);
    var f3 := SetFlagU8(f2, 255, 5);
    assert I8ToU8(Registers.Keep) == 255;
    assert SetFlagsU8(f, Registers.Keep, Registers.Keep, Registers.Keep, Registers.Keep) == SetBit(f3, 4);
    SetBitBit(f, 7, j);
    SetBitBit(f1, 6, j);
    SetBitBit(f2, 5, j);
    SetBitBit(f3, 4, j);
    Registers.HighDigits(f);
  }

  /** Concretely: with F = 0, "keep every flag" yields F = 0xF0 instead of 0. */
  lemma SetFlagsKeepCounterexample()
    ensures SetFlagsU8(0, -1, -1, -1, -1) == 0xF0
  {
    Pow2Values();
  }

  /** With an argument other than -1 the two SetFlags agree. */
  lemma SetFlagsAgreeOnDefinite(f: u8, z: i8, n: i8, hc: i8, cy: i8)
    requires z != -1 && n != -1 && hc != -1 && cy != -1
    ensures SetFlagsU8(f, z, n, hc, cy) == Registers.RegisterFile(0, f, 0, 0, 0, 0, 0, 0, 0, 0).SetFlags(z, n, hc, cy).f
  {
    Registers.SetFlagsIsBitwise(Registers.RegisterFile(0, f, 0, 0, 0, 0, 0, 0, 0, 0), z, n, hc, cy);
    assert SetFlagsU8(f, z, n, hc, cy) == Registers.SetFlagsBitwise(f, z, n, hc, cy);
  }
}
