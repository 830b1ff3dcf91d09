/**
 * Object attribute memory, the part of class PPU the core touches: 160
 * bytes addressed from 0xFE00. Reads and writes translate the address by
 * `address - 0xFE00` with no range check, so an address outside the OAM
 * range indexes past the array; the model reports that as a fault.
 */
module Ppu {
  import opened Bits
  import opened Types

  const OamStart: u16 := 0xFE00
  const TotalOamSize: u16 := 0xA0
  const OamEnd: u16 := 0xFE00 + 0xA0 - 1

  type Oam = s: seq<u8> | |s| == 0xA0 witness Zeros(0xA0)

  const InitialOam: Oam := Zeros(0xA0)

  predicate IsOamAddr(a: u16) { OamStart <= a <= OamEnd }

  /** `address - OAM_START` in u16 arithmetic. */
  function OamIndex(a: u16): u16 { Wrap16(a - OamStart) }

  function ReadOam(oam: Oam, a: u16): (r: Result<u8>)
    ensures r.Ok? <==> IsOamAddr(a)
    ensures r.Ok? ==> r.value == oam[a - OamStart]
  {
    var i := OamIndex(a);
    if i < TotalOamSize then Ok(oam[i]) else Fail(OamOutOfRange(i))
  }

  function WriteOam(oam: Oam, a: u16, v: u8): (r: Result<Oam>)
    ensures r.Ok? <==> IsOamAddr(a)
    ensures r.Ok? ==> r.value == oam[a - OamStart := v]
  {
    var i := OamIndex(a);
    if i < TotalOamSize then var updated: Oam := oam[i := v]; Ok(updated) else Fail(OamOutOfRange(i))
  }

  /** The OAM index of an OAM address is in [0, 160); any other address translates to 160 or more. */
  lemma OamIndexRange(a: u16)
    ensures IsOamAddr(a) <==> OamIndex(a) < 0xA0
    ensures IsOamAddr(a) <==> 0xFE00 <= a <= 0xFE9F
  {
  }

  /** Write-then-read returns the value and leaves the other OAM bytes unchanged. */
  lemma OamWriteRead(oam: Oam, a: u16, b: u16, v: u8)
    requires IsOamAddr(a) && IsOamAddr(b)
    ensures WriteOam(oam, a, v).Ok? && ReadOam(oam, b).Ok?
    ensures ReadOam(WriteOam(oam, a, v).value, b) == Ok(if a == b then v else ReadOam(oam, b).value)
  {
  }

  /** A raw offset below 160, as opposed to an OAM address, indexes 0x200 bytes past its slot. */
  lemma RawOffsetOutOfRange(oam: Oam, offset: u16, v: u8)
    requires offset < 0xA0
    ensures OamIndex(offset) == offset + 0x200
    ensures WriteOam(oam, offset, v) == Fail(OamOutOfRange(offset + 0x200))
    ensures ReadOam(oam, offset) == Fail(OamOutOfRange(offset + 0x200))
  {
  }
}
