/**
 * The cartridge: the ROM image with its header at 0x100-0x14F, and sixteen
 * 8 KiB banks of external RAM of which bank `extRamBank` is mapped at
 * 0xA000-0xBFFF. No memory bank controller is implemented, so the bank
 * selector never changes and every write to the ROM range is fatal.
 */
module Cart {
  import opened Bits
  import opened Types

  const ExtRamStart: u16 := 0xA000
  const ExtRamBankSize: u16 := 0x2000
  const ExtRamEnd: u16 := 0xA000 + 0x2000 - 1

  /** Header field offsets in the ROM image (the ROM_Header struct laid over romData + 0x100). */
  const TitleStart: nat := 0x134
  const CgbFlagOffset: nat := 0x143     // title[15]
  const RomSizeOffset: nat := 0x148
  const RamSizeOffset: nat := 0x149
  const ChecksumOffset: nat := 0x14D
  /** The header bytes the checksum covers, 0x134 through 0x14C. */
  const ChecksumLength: nat := 0x14C - 0x134 + 1

  datatype CartState = CartState(rom: seq<u8>, extRam: seq<u8>, extRamBank: u8)
  {
    /** The image holds a whole header, and the 16 RAM banks of 0x2000 bytes exist. */
    predicate Valid()
    {
      |rom| >= 0x150 && |extRam| == 16 * 0x2000 && extRamBank < 16
    }
  }

  type Cart = c: CartState | c.Valid()
    witness CartState(Zeros(0x150), Zeros(16 * 0x2000), 0)

  /** An all-zero cartridge with the smallest image that holds a header. */
  const Blank: Cart := CartState(Zeros(0x150), Zeros(16 * 0x2000), 0)

  predicate IsRomAddr(a: u16) { a <= 0x7FFF }
  predicate IsExtRamAddr(a: u16) { ExtRamStart <= a <= ExtRamEnd }

  // ---------------------------------------------------------------------
  // Header getters
  // ---------------------------------------------------------------------

  /** The CGB flag is title[15]: 0x80 compatible, 0xC0 CGB only, anything else none. */
  function GetCgbFlag(c: Cart): (r: CgbFlag)
    ensures r == CgbCompatible <==> c.rom[CgbFlagOffset] == 0x80
    ensures r == CgbOnly <==> c.rom[CgbFlagOffset] == 0xC0
    ensures r == CgbNone <==> c.rom[CgbFlagOffset] !in {0x80, 0xC0}
  {
    var flag := c.rom[CgbFlagOffset];
    if flag == 0x80 then CgbCompatible
    else if flag == 0xC0 then CgbOnly
    else CgbNone
  }

  /** The number of 8 KiB external RAM banks a RAM-size code announces. */
  function GetExtRamBankCount(ramSize: u8): (r: u8)
    ensures r in {0, 1, 4, 8, 16}
    ensures r <= 16
    ensures r > 0 <==> 2 <= ramSize <= 5
  {
    match ramSize
    case 0 => 0
    case 1 => 0
    case 2 => 1
    case 3 => 4
    case 4 => 16
    case 5 => 8
    case _ => 0
  }

  /** The bank count of the cartridge's own header. */
  function ExtRamBanks(c: Cart): u8 { GetExtRamBankCount(c.rom[RamSizeOffset]) }

  /**
   * GetRomBankCount as written: it returns u8, so the counts 256 and 512 of
   * size codes 7 and 8 are truncated to 0.
   */
  function GetRomBankCount(romSize: u8): u8
  {
    match romSize
    case 0 => 2
    case 1 => 4
    case 2 => 8
    case 3 => 16
    case 4 => 32
    case 5 => 64
    case 6 => 128
    case 7 => Wrap8(256)
    case 8 => Wrap8(512)
    case _ => 2
  }

  /** The bank count as intended, `2 << romSize` for the codes 0-8, and 2 otherwise. */
  function RomBankCount(romSize: u8): (r: u16)
    ensures romSize <= 8 ==> r == 2 * Pow2(romSize)
    ensures romSize > 8 ==> r == 2
  {
    match romSize
    case 0 => 2
    case 1 => 4
    case 2 => 8
    case 3 => 16
    case 4 => 32
    case 5 => 64
    case 6 => 128
    case 7 => 256
    case 8 => 512
    case _ => 2
  }

  /**
   * `32 * 1024 * (1 << romSize)` in int arithmetic. It is defined up to size
   * code 15; from 16 on the product overflows int, which is undefined.
   */
  function GetRomTotalSize(romSize: u8): (r: Option<u32>)
    ensures r.Some? <==> romSize <= 15
    ensures r.Some? ==> r.value == 32 * 1024 * Pow2(romSize)
  {
    if romSize <= 15 then
      PowMono(romSize, 16);
      Pow2Values();
      MulMono(Pow2(romSize), 0x1_0000, 32 * 1024);
      var total: u32 := 32 * 1024 * Pow2(romSize);
      Some(total)
    else None
  }

  // ---------------------------------------------------------------------
  // Header checksum
  // ---------------------------------------------------------------------

  /** One step `x = x - romData[i] - 1` of the fold: romData holds chars, which are signed. */
  function ChecksumStep(x: u16, b: u8): u16
  {
    Wrap16(x - ToI8(b) - 1)
  }

  /** The fold over the first `n` checksummed header bytes, starting from x = 0. */
  function HeaderFold(rom: seq<u8>, n: nat): u16
    requires n <= ChecksumLength && |rom| >= 0x150
  {
    if n == 0 then 0 else ChecksumStep(HeaderFold(rom, n - 1), rom[TitleStart + n - 1])
  }

  /** The unsigned sum of the first `n` checksummed header bytes. */
  function HeaderSum(rom: seq<u8>, n: nat): nat
    requires n <= ChecksumLength && |rom| >= 0x150
  {
    if n == 0 then 0 else HeaderSum(rom, n - 1) + rom[TitleStart + n - 1]
  }

  /** ValidateChecksum as written: the low byte of the fold is nonzero. */
  function ValidateChecksumAsWritten(rom: seq<u8>): bool
    requires |rom| >= 0x150
  {
    HeaderFold(rom, ChecksumLength) % 0x100 != 0
  }

  /** Cartridge::ValidateChecksum: the fold runs over 0x134..0x14C in place, then its low byte is tested. */
  method ValidateChecksum(rom: seq<u8>) returns (valid: bool)
    requires |rom| >= 0x150
    ensures valid == ValidateChecksumAsWritten(rom)
  {
    var x: u16 := 0;
    var i := TitleStart;
    while i <= 0x14C
      invariant TitleStart <= i <= TitleStart + ChecksumLength
      invariant x == HeaderFold(rom, i - TitleStart)
    {
      x := ChecksumStep(x, rom[i]);
      i := i + 1;
    }
    valid := x % 0x100 != 0;
  }

  /** The header check as intended: the low byte of the fold equals the stored checksum at 0x14D. */
  function ChecksumMatches(rom: seq<u8>): bool
    requires |rom| >= 0x150
  {
    HeaderFold(rom, ChecksumLength) % 0x100 == rom[ChecksumOffset]
  }

  lemma ModOfWrap16(y: int)
    ensures Wrap16(y) % 0x100 == y % 0x100
  {
    var q := y / 0x1_0000;
    assert y == q * 0x1_0000 + Wrap16(y);
    assert q * 0x1_0000 == (q * 0x100) * 0x100;
  }

  lemma ModShift(y: int, k: int)
    ensures (y + k * 0x100) % 0x100 == y % 0x100
  {
  }

  /**
   * Closed form of the fold: its low byte is minus the byte sum minus the
   * byte count, and the signedness of char does not change it.
   */
  lemma {:induction false} HeaderFoldClosedForm(rom: seq<u8>, n: nat)
    requires n <= ChecksumLength && |rom| >= 0x150
    ensures HeaderFold(rom, n) % 0x100 == (0 - HeaderSum(rom, n) - n) % 0x100
    decreases n
  {
    if n > 0 {
      HeaderFoldClosedForm(rom, n - 1);
      var x := HeaderFold(rom, n - 1);
      var b := rom[TitleStart + n - 1];
      var y := x - ToI8(b) - 1;
      ModOfWrap16(y);
      var k := (ToI8(b) - b) / 0x100;
      assert ToI8(b) == b + k * 0x100;
      ModShift(x - b - 1, -k);
      var s := HeaderSum(rom, n - 1);
      var j := x / 0x100 - (0 - s - (n - 1)) / 0x100;
      assert x == (0 - s - (n - 1)) + j * 0x100;
      ModShift(0 - s - (n - 1) - b - 1, j);
    }
  }

  /**
   * An all-zero header has byte sum 0, so its fold's low byte is minus the
   * number of bytes folded: 0xE7 for all 25, because each subtracts one.
   */
  lemma {:induction false} ZeroHeaderSum(rom: seq<u8>, n: nat)
    requires n <= ChecksumLength && |rom| >= 0x150
    requires forall i :: TitleStart <= i < TitleStart + ChecksumLength ==> rom[i] == 0
    ensures HeaderSum(rom, n) == 0
    ensures HeaderFold(rom, n) % 0x100 == (0 - n) % 0x100
    ensures n == ChecksumLength ==> HeaderFold(rom, n) % 0x100 == 0xE7
    decreases n
  {
    if n > 0 {
      ZeroHeaderSum(rom, n - 1);
    }
    HeaderFoldClosedForm(rom, n);
  }

  /**
   * The check as written ignores the stored checksum: its verdict does not
   * depend on byte 0x14D, and whenever that byte is 0 it gives exactly the
   * opposite of the intended comparison.
   */
  lemma ValidateChecksumIgnoresStoredByte(rom: seq<u8>, stored: u8)
    requires |rom| >= 0x150
    ensures ValidateChecksumAsWritten(rom[ChecksumOffset := stored]) == ValidateChecksumAsWritten(rom)
    ensures rom[ChecksumOffset] == 0 ==> ValidateChecksumAsWritten(rom) == !ChecksumMatches(rom)
  {
    var rom' := rom[ChecksumOffset := stored];
    assert forall n :: 0 <= n <= ChecksumLength ==> HeaderFold(rom', n) == HeaderFold(rom, n) by {
      forall n | 0 <= n <= ChecksumLength
        ensures HeaderFold(rom', n) == HeaderFold(rom, n)
      {
        FoldIgnoresTail(rom, rom', n);
      }
    }
  }

  /** The fold reads only the checksummed bytes. */
  lemma {:induction false} FoldIgnoresTail(rom: seq<u8>, rom': seq<u8>, n: nat)
    requires n <= ChecksumLength && |rom| >= 0x150 && |rom'| >= 0x150
    requires forall i :: TitleStart <= i < TitleStart + ChecksumLength ==> rom[i] == rom'[i]
    ensures HeaderFold(rom, n) == HeaderFold(rom', n)
    decreases n
  {
    if n > 0 {
      FoldIgnoresTail(rom, rom', n - 1);
    }
  }

  /**
   * A header of zeros with stored checksum 0 is accepted by the check as
   * written, although the correct checksum of those bytes is 0xE7.
   */
  lemma ZeroHeaderAccepted(rom: seq<u8>)
    requires |rom| >= 0x150
    requires forall i :: TitleStart <= i <= ChecksumOffset ==> rom[i] == 0
    ensures HeaderFold(rom, ChecksumLength) % 0x100 == 0xE7
    ensures ValidateChecksumAsWritten(rom) && !ChecksumMatches(rom)
  {
    ZeroHeaderSum(rom, ChecksumLength);
    HeaderFoldClosedForm(rom, ChecksumLength);
  }

  /** The intended check accepts exactly the images whose stored byte is minus the sum minus 25. */
  lemma ChecksumMatchesClosedForm(rom: seq<u8>)
    requires |rom| >= 0x150
    ensures ChecksumMatches(rom) <==> rom[ChecksumOffset] == (0 - HeaderSum(rom, ChecksumLength) - 25) % 0x100
  {
    HeaderFoldClosedForm(rom, ChecksumLength);
  }

  // ---------------------------------------------------------------------
  // Reads and writes
  // ---------------------------------------------------------------------

  function ReadByte(c: Cart, a: u16): (r: Result<u8>)
    ensures IsExtRamAddr(a) ==> (r.Ok? <==> ExtRamBanks(c) > 0)
    ensures !IsExtRamAddr(a) ==> (r.Ok? <==> a < |c.rom|) && (r.Ok? ==> r.value == c.rom[a])
  {
    if IsExtRamAddr(a) then
      if ExtRamBanks(c) == 0 then Fail(NoExtRamRead(a))
      else Ok(c.extRam[c.extRamBank * 0x2000 + (a - ExtRamStart)])
    else if a < |c.rom| then Ok(c.rom[a])
    else Fail(RomOutOfRange(a))
  }

  function WriteByte(c: Cart, a: u16, v: u8): (r: Result<Cart>)
    ensures r.Ok? <==> IsExtRamAddr(a) && ExtRamBanks(c) > 0
    ensures r.Ok? ==> r.value.rom == c.rom && r.value.extRamBank == c.extRamBank
  {
    if IsExtRamAddr(a) then
      if ExtRamBanks(c) == 0 then Fail(NoExtRamWrite(a))
      else
        var updated: Cart := c.(extRam := c.extRam[c.extRamBank * 0x2000 + (a - ExtRamStart) := v]);
        Ok(updated)
    else Fail(RomWrite(a))
  }

  // ---------------------------------------------------------------------
  // Properties
  // ---------------------------------------------------------------------

  /** ROM and external-RAM addresses are disjoint. */
  lemma AddressRangesDisjoint(a: u16)
    ensures !(IsRomAddr(a) && IsExtRamAddr(a))
    ensures IsExtRamAddr(a) <==> 0xA000 <= a <= 0xBFFF
  {
  }

  /** External RAM with at least one bank reads back what was written, and only there. */
  lemma ExtRamWriteRead(c: Cart, a: u16, b: u16, v: u8)
    requires IsExtRamAddr(a) && IsExtRamAddr(b) && ExtRamBanks(c) > 0
    ensures WriteByte(c, a, v).Ok?
    ensures ReadByte(WriteByte(c, a, v).value, b) == Ok(if a == b then v else ReadByte(c, b).value)
  {
  }

  /** With no RAM banks both read and write of external RAM stop at the debug break. */
  lemma NoBanksIsFatal(c: Cart, a: u16, v: u8)
    requires IsExtRamAddr(a) && ExtRamBanks(c) == 0
    ensures ReadByte(c, a) == Fail(NoExtRamRead(a))
    ensures WriteByte(c, a, v) == Fail(NoExtRamWrite(a))
  {
  }

  /** Without a bank controller a write to the ROM range is fatal. */
  lemma RomWriteIsFatal(c: Cart, a: u16, v: u8)
    requires IsRomAddr(a)
    ensures WriteByte(c, a, v) == Fail(RomWrite(a))
  {
  }

  /** Size codes 7 and 8 lose their bank count to the u8 return type; codes 0-6 and 9+ agree. */
  lemma RomBankCountTruncated(romSize: u8)
    ensures GetRomBankCount(7) == 0 && RomBankCount(7) == 256
    ensures GetRomBankCount(8) == 0 && RomBankCount(8) == 512
    ensures romSize !in {7, 8} ==> GetRomBankCount(romSize) == RomBankCount(romSize)
  {
  }

  /** The intended bank count times 16 KiB is the total ROM size, for every defined size code. */
  lemma RomBanksFillTotalSize(romSize: u8)
    requires romSize <= 8
    ensures GetRomTotalSize(romSize).Some?
    ensures RomBankCount(romSize) * 0x4000 == GetRomTotalSize(romSize).value
  {
  }
}
