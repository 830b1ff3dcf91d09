/**
 * The LCD register predicates and the constant-valued LCD read. The LCD
 * registers hold no state in the core: every read returns a constant.
 */
module Lcd {
  import opened Bits

  predicate IsControlAddress(a: u16) { a == 0xFF40 }
  predicate IsStatusAddress(a: u16) { a == 0xFF41 || a == 0xFF44 || a == 0xFF45 }
  predicate IsPosScrollAddress(a: u16) { a == 0xFF42 || a == 0xFF43 || a == 0xFF4A || a == 0xFF4B }
  predicate IsBcpsAddress(a: u16) { 0xFF47 <= a <= 0xFF49 }

  /**
   * The combined predicate emulator/io.cpp calls. No shown file defines
   * it; the model takes it to be the union of the four predicates above.
   */
  predicate IsLcdAddress(a: u16)
  {
    IsControlAddress(a) || IsStatusAddress(a) || IsPosScrollAddress(a) || IsBcpsAddress(a)
  }

  /** LY (0xFF44) always reads 0x90, the first V-blank line; every other address reads 0. */
  function ReadByte(a: u16): (r: u8)
    ensures r == 0x90 <==> a == 0xFF44
  {
    if a == 0xFF44 then 0x90 else 0
  }

  /** The four predicates are pairwise disjoint, and the DMA register 0xFF46 satisfies none. */
  lemma PredicatesDisjoint(a: u16)
    ensures !(IsControlAddress(a) && IsStatusAddress(a))
    ensures !(IsControlAddress(a) && IsPosScrollAddress(a))
    ensures !(IsControlAddress(a) && IsBcpsAddress(a))
    ensures !(IsStatusAddress(a) && IsPosScrollAddress(a))
    ensures !(IsStatusAddress(a) && IsBcpsAddress(a))
    ensures !(IsPosScrollAddress(a) && IsBcpsAddress(a))
    ensures !IsLcdAddress(0xFF46)
  {
  }

  /** The LCD registers are the eleven addresses 0xFF40-0xFF45, 0xFF47-0xFF4B, minus 0xFF46. */
  lemma LcdAddresses(a: u16)
    ensures IsLcdAddress(a) <==> 0xFF40 <= a <= 0xFF4B && a != 0xFF46
  {
  }
}
