/**
 * Work RAM, video RAM and high RAM (class RAM). WRAM is bank 0 at
 * 0xC000-0xCFFF and the selected one of banks 1-7 at 0xD000-0xDFFF; VRAM is
 * the selected one of two 0x2000-byte banks at 0x8000; HRAM is 0x7F bytes at
 * 0xFF80. The multi-bank arrays are stored flat, bank after bank.
 */
module Ram {
  import opened Bits

  const WramStart: u16 := 0xC000
  const WramBankSize: u16 := 0x1000
  const WramEnd: u16 := 0xC000 + 2 * 0x1000 - 1
  const VramStart: u16 := 0x8000
  const VramBankSize: u16 := 0x2000
  const VramEnd: u16 := 0x8000 + 0x2000 - 1
  const HramStart: u16 := 0xFF80
  const HramSize: u16 := 0x7F
  const HramEnd: u16 := 0xFF80 + 0x7F - 1

  datatype RamState = RamState(
    wram0: seq<u8>,       // WRAM_Bank_0
    wramBanks: seq<u8>,   // WRAM_Banks_1_7, 7 banks of 0x1000
    wramBank: u8,         // currentWRAMBank
    vram: seq<u8>,        // VRAM_Banks, 2 banks of 0x2000
    vramBank: u8,         // currentVRAMBank
    hram: seq<u8>)        // HRAM_Mem
  {
    /** The array sizes of ram.h, and bank selectors that name an existing bank. */
    predicate Valid()
    {
      |wram0| == 0x1000 && |wramBanks| == 7 * 0x1000 && wramBank < 7
      && |vram| == 2 * 0x2000 && vramBank < 2 && |hram| == 0x7F
    }
  }

  type Ram = r: RamState | r.Valid()
    witness RamState(Zeros(0x1000), Zeros(7 * 0x1000), 0, Zeros(2 * 0x2000), 0, Zeros(0x7F))

  /** A value-initialised RAM: every byte 0, bank selectors 0. */
  const Initial: Ram :=
    RamState(Zeros(0x1000), Zeros(7 * 0x1000), 0, Zeros(2 * 0x2000), 0, Zeros(0x7F))

  predicate IsWramAddr(a: u16) { WramStart <= a <= WramEnd }
  predicate IsVramAddr(a: u16) { VramStart <= a <= VramEnd }
  predicate IsHramAddr(a: u16) { HramStart <= a <= HramEnd }

  /** `address - WRAM_START` in u16 arithmetic. */
  function WramOffset(a: u16): u16 { Wrap16(a - WramStart) }

  /**
   * The indexes ReadWRAM_Byte / WriteWRAM_Byte compute lie inside the arrays:
   * an offset below one bank goes to bank 0, otherwise `offset - 0x1000`
   * must fit in the selected bank.
   */
  predicate WramIndexInBounds(a: u16)
  {
    WramOffset(a) < WramBankSize || WramOffset(a) - WramBankSize < WramBankSize
  }

  /** The flat index of a WRAM address in the selected bank 1-7. */
  function BankedIndex(bank: u8, offset: int): int { bank * 0x1000 + offset }

  function ReadWram(r: Ram, a: u16): u8
    requires IsWramAddr(a)
  {
    var t := WramOffset(a);
    if t < WramBankSize then r.wram0[t]
    else r.wramBanks[BankedIndex(r.wramBank, t - WramBankSize)]
  }

  function WriteWram(r: Ram, a: u16, v: u8): Ram
    requires IsWramAddr(a)
  {
    var t := WramOffset(a);
    if t < WramBankSize then r.(wram0 := r.wram0[t := v])
    else r.(wramBanks := r.wramBanks[BankedIndex(r.wramBank, t - WramBankSize) := v])
  }

  function ReadVram(r: Ram, a: u16): u8
    requires IsVramAddr(a)
  {
    r.vram[r.vramBank * 0x2000 + Wrap16(a - VramStart)]
  }

  function WriteVram(r: Ram, a: u16, v: u8): Ram
    requires IsVramAddr(a)
  {
    r.(vram := r.vram[r.vramBank * 0x2000 + Wrap16(a - VramStart) := v])
  }

  function ReadHram(r: Ram, a: u16): u8
    requires IsHramAddr(a)
  {
    r.hram[Wrap16(a - HramStart)]
  }

  function WriteHram(r: Ram, a: u16, v: u8): Ram
    requires IsHramAddr(a)
  {
    r.(hram := r.hram[Wrap16(a - HramStart) := v])
  }

  /** The external-RAM stub of class RAM: reads 0. */
  function ReadExtRam(r: Ram, a: u16): (v: u8)
    ensures v == 0
  {
    0
  }

  /** The external-RAM stub of class RAM: writes nothing. */
  function WriteExtRam(r: Ram, a: u16, v: u8): (r': Ram)
    ensures r' == r
  {
    r
  }

  // ---------------------------------------------------------------------
  // Properties
  // ---------------------------------------------------------------------

  /** The three region predicates are pairwise disjoint. */
  lemma RegionsDisjoint(a: u16)
    ensures !(IsWramAddr(a) && IsVramAddr(a))
    ensures !(IsWramAddr(a) && IsHramAddr(a))
    ensures !(IsVramAddr(a) && IsHramAddr(a))
  {
  }

  /** The region predicates cover exactly 0xC000-0xDFFF, 0x8000-0x9FFF and 0xFF80-0xFFFE. */
  lemma RegionBounds(a: u16)
    ensures IsWramAddr(a) <==> 0xC000 <= a <= 0xDFFF
    ensures IsVramAddr(a) <==> 0x8000 <= a <= 0x9FFF
    ensures IsHramAddr(a) <==> 0xFF80 <= a <= 0xFFFE
  {
  }

  /**
   * The WRAM translation stays inside the arrays exactly for WRAM addresses:
   * any other address wraps to an offset of at least 0x2000.
   */
  lemma WramIndexInBoundsExactly(a: u16)
    ensures WramIndexInBounds(a) <==> IsWramAddr(a)
  {
  }

  /** Offsets below 0x1000 go to bank 0; the rest go to the selected bank at `offset - 0x1000`. */
  lemma WramBanking(r: Ram, a: u16)
    requires IsWramAddr(a)
    ensures a < 0xD000 ==> ReadWram(r, a) == r.wram0[a - 0xC000]
    ensures a >= 0xD000 ==> ReadWram(r, a) == r.wramBanks[r.wramBank * 0x1000 + (a - 0xD000)]
  {
  }

  /** Every index computed from an address satisfying its predicate is in bounds. */
  lemma IndexesInBounds(r: Ram, a: u16)
    ensures IsWramAddr(a) && WramOffset(a) >= WramBankSize ==>
      0 <= BankedIndex(r.wramBank, WramOffset(a) - WramBankSize) < |r.wramBanks|
    ensures IsVramAddr(a) ==> 0 <= r.vramBank * 0x2000 + Wrap16(a - VramStart) < |r.vram|
    ensures IsHramAddr(a) ==> 0 <= Wrap16(a - HramStart) < |r.hram|
  {
  }

  /** WRAM: a write is read back at its address and leaves every other WRAM address alone. */
  lemma WramWriteRead(r: Ram, a: u16, b: u16, v: u8)
    requires IsWramAddr(a) && IsWramAddr(b)
    ensures ReadWram(WriteWram(r, a, v), b) == if a == b then v else ReadWram(r, b)
  {
  }

  /** VRAM: a write is read back at its address and leaves every other VRAM address alone. */
  lemma VramWriteRead(r: Ram, a: u16, b: u16, v: u8)
    requires IsVramAddr(a) && IsVramAddr(b)
    ensures ReadVram(WriteVram(r, a, v), b) == if a == b then v else ReadVram(r, b)
  {
  }

  /** HRAM: a write is read back at its address and leaves every other HRAM address alone. */
  lemma HramWriteRead(r: Ram, a: u16, b: u16, v: u8)
    requires IsHramAddr(a) && IsHramAddr(b)
    ensures ReadHram(WriteHram(r, a, v), b) == if a == b then v else ReadHram(r, b)
  {
  }

  /** A write to one region changes nothing in the other two, nor the bank selectors. */
  lemma WritesStayInRegion(r: Ram, a: u16, v: u8)
    ensures IsWramAddr(a) ==> var r' := WriteWram(r, a, v);
      r'.vram == r.vram && r'.hram == r.hram && r'.wramBank == r.wramBank && r'.vramBank == r.vramBank
    ensures IsVramAddr(a) ==> var r' := WriteVram(r, a, v);
      r'.wram0 == r.wram0 && r'.wramBanks == r.wramBanks && r'.hram == r.hram && r'.vramBank == r.vramBank
    ensures IsHramAddr(a) ==> var r' := WriteHram(r, a, v);
      r'.wram0 == r.wram0 && r'.wramBanks == r.wramBanks && r'.vram == r.vram
  {
  }
}
