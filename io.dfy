/**
 * The IO register dispatch (class IO) in its two versions. The one in
 * lib/io.cpp is the one the memory bus reaches: it sub-dispatches LCD
 * reads by the four LCD predicates and starts OAM DMA on a write to 0xFF46,
 * but has no branch that writes IE. The one in emulator/io.cpp instead uses
 * the combined LCD predicate, writes IE at 0xFFFF and never starts DMA.
 */
module Io {
  import opened Bits
  import opened Types
  import opened EmuState
  import Dma
  import Lcd
  import Timer
  import Ppu

  /** 0xFF00-0xFF7F and 0xFFFF. */
  predicate IsIoAddr(a: u16) { (0xFF00 <= a && a < 0xFF80) || a == 0xFFFF }

  const SerialData: u16 := 0xFF01
  const SerialControl: u16 := 0xFF02
  const InterruptFlagAddr: u16 := 0xFF0F
  const InterruptEnableAddr: u16 := 0xFFFF
  const DmaAddr: u16 := 0xFF46

  /** The OAM branch both versions share: 0xFF while a transfer runs, else the OAM byte. */
  function ReadOamGuarded(m: Mem, a: u16): (r: u8)
    requires Ppu.IsOamAddr(a)
    ensures r == if m.dma.active then 0xFF else m.oam[a - Ppu.OamStart]
  {
    if Dma.TransferActive(m.dma) then 0xFF else Ppu.ReadOam(m.oam, a).value
  }

  /** IO::ReadByte of lib/io.cpp. Its 0xFF44 counter branch comes after the status predicate and is never reached. */
  function ReadByte(m: Mem, a: u16): u8
  {
    if a == SerialData then m.serial[0]
    else if a == SerialControl then m.serial[1]
    else if Lcd.IsBcpsAddress(a) then Lcd.ReadByte(a)
    else if Lcd.IsControlAddress(a) then Lcd.ReadByte(a)
    else if Lcd.IsPosScrollAddress(a) then Lcd.ReadByte(a)
    else if Lcd.IsStatusAddress(a) then Lcd.ReadByte(a)
    else if Timer.IsTimerAddr(a) then Timer.ReadByte(m.timer, a).value
    else if a == InterruptFlagAddr then m.intFlags
    else if a == InterruptEnableAddr then m.ieFlags
    else if Ppu.IsOamAddr(a) then ReadOamGuarded(m, a)
    else 0
  }

  /** IO::WriteByte of lib/io.cpp. */
  function WriteByte(m: Mem, a: u16, v: u8): Mem
  {
    if a == SerialData then m.(serial := m.serial[0 := v])
    else if a == SerialControl then m.(serial := m.serial[1 := v])
    else if Timer.IsTimerAddr(a) then m.(timer := Timer.WriteByte(m.timer, a, v).value)
    else if a == InterruptFlagAddr then m.(intFlags := v)
    else if a == DmaAddr then m.(dma := Dma.Start(m.dma, v))
    else if Ppu.IsOamAddr(a) then
      if Dma.TransferActive(m.dma) then m else m.(oam := Ppu.WriteOam(m.oam, a, v).value)
    else m
  }

  /** IO::ReadByte of emulator/io.cpp. */
  function AltReadByte(m: Mem, a: u16): u8
  {
    if a == SerialData then m.serial[0]
    else if a == SerialControl then m.serial[1]
    else if Lcd.IsLcdAddress(a) then Lcd.ReadByte(a)
    else if Timer.IsTimerAddr(a) then Timer.ReadByte(m.timer, a).value
    else if a == InterruptFlagAddr then m.intFlags
    else if a == InterruptEnableAddr then m.ieFlags
    else if Ppu.IsOamAddr(a) then ReadOamGuarded(m, a)
    else 0
  }

  /**
   * IO::WriteByte of emulator/io.cpp. LCD::WriteByte is defined in no file
   * of the core, so the LCD branch writes nothing here.
   */
  function AltWriteByte(m: Mem, a: u16, v: u8): Mem
  {
    if a == SerialData then m.(serial := m.serial[0 := v])
    else if a == SerialControl then m.(serial := m.serial[1 := v])
    else if Timer.IsTimerAddr(a) then m.(timer := Timer.WriteByte(m.timer, a, v).value)
    else if a == InterruptFlagAddr then m.(intFlags := v)
    else if Lcd.IsLcdAddress(a) then m
    else if Ppu.IsOamAddr(a) then
      if Dma.TransferActive(m.dma) then m else m.(oam := Ppu.WriteOam(m.oam, a, v).value)
    else if a == InterruptEnableAddr then m.(ieFlags := v)
    else m
  }

  // ---------------------------------------------------------------------
  // Properties
  // ---------------------------------------------------------------------

  /** The timer and LCD registers lie in the IO range, and the IO range does not meet OAM. */
  lemma IoAddresses(a: u16)
    ensures Timer.IsTimerAddr(a) || Lcd.IsLcdAddress(a) ==> IsIoAddr(a)
    ensures IsIoAddr(a) ==> !Ppu.IsOamAddr(a)
  {
  }

  /** The serial registers read back what was written, in both versions, and nothing else changes. */
  lemma SerialRoundTrip(m: Mem, a: u16, v: u8)
    requires a == SerialData || a == SerialControl
    ensures ReadByte(WriteByte(m, a, v), a) == v && AltReadByte(AltWriteByte(m, a, v), a) == v
    ensures WriteByte(m, a, v) == AltWriteByte(m, a, v)
    ensures WriteByte(m, a, v) == m.(serial := m.serial[a - SerialData := v])
  {
  }

  /** 0xFF0F reads and writes IF in both versions; 0xFFFF reads IE in both. */
  lemma InterruptRegisters(m: Mem, v: u8)
    ensures WriteByte(m, InterruptFlagAddr, v) == m.(intFlags := v)
    ensures AltWriteByte(m, InterruptFlagAddr, v) == m.(intFlags := v)
    ensures ReadByte(m, InterruptFlagAddr) == m.intFlags == AltReadByte(m, InterruptFlagAddr)
    ensures ReadByte(m, InterruptEnableAddr) == m.ieFlags == AltReadByte(m, InterruptEnableAddr)
  {
  }

  /** lib/io.cpp has no IE write: a write to 0xFFFF is dropped there and stored by emulator/io.cpp. */
  lemma InterruptEnableWrite(m: Mem, v: u8)
    ensures WriteByte(m, InterruptEnableAddr, v) == m
    ensures AltWriteByte(m, InterruptEnableAddr, v) == m.(ieFlags := v)
    ensures AltReadByte(AltWriteByte(m, InterruptEnableAddr, v), InterruptEnableAddr) == v
  {
  }

  /** 0xFF04-0xFF07 are forwarded to the timer, read and write, in both versions. */
  lemma TimerForwarded(m: Mem, a: u16, v: u8)
    requires Timer.IsTimerAddr(a)
    ensures ReadByte(m, a) == Timer.ReadByte(m.timer, a).value == AltReadByte(m, a)
    ensures WriteByte(m, a, v) == m.(timer := Timer.WriteByte(m.timer, a, v).value) == AltWriteByte(m, a, v)
  {
    Lcd.LcdAddresses(a);
  }

  /** A write to 0xFF46 starts a transfer from that page (lib/io.cpp) or does nothing (emulator/io.cpp). */
  lemma DmaRegisterWrite(m: Mem, v: u8)
    ensures WriteByte(m, DmaAddr, v) == m.(dma := Dma.DmaState(true, 0, v, 2))
    ensures AltWriteByte(m, DmaAddr, v) == m
  {
    Lcd.PredicatesDisjoint(DmaAddr);
  }

  /** LCD reads go through the LCD predicates first: LY at 0xFF44 reads 0x90 and the counter is never reached. */
  lemma LcdReads(m: Mem, a: u16)
    requires Lcd.IsLcdAddress(a)
    ensures ReadByte(m, a) == Lcd.ReadByte(a) == AltReadByte(m, a)
    ensures ReadByte(m, 0xFF44) == 0x90
  {
  }

  /** An OAM address reads 0xFF and drops writes while DMA runs; otherwise it reaches the OAM byte. */
  lemma OamDuringDma(m: Mem, a: u16, v: u8)
    requires Ppu.IsOamAddr(a)
    ensures m.dma.active ==> ReadByte(m, a) == 0xFF && WriteByte(m, a, v) == m
    ensures !m.dma.active ==>
              ReadByte(m, a) == m.oam[a - Ppu.OamStart] && WriteByte(m, a, v) == m.(oam := m.oam[a - Ppu.OamStart := v])
    ensures ReadByte(m, a) == AltReadByte(m, a) && WriteByte(m, a, v) == AltWriteByte(m, a, v)
  {
  }

  /** The registers no branch names: reads give 0 and writes change nothing, in both versions. */
  predicate Unmatched(a: u16)
  {
    a != SerialData && a != SerialControl && !Lcd.IsLcdAddress(a) && !Timer.IsTimerAddr(a)
    && a != InterruptFlagAddr && a != InterruptEnableAddr && a != DmaAddr && !Ppu.IsOamAddr(a)
  }

  lemma UnmatchedAddresses(m: Mem, a: u16, v: u8)
    requires Unmatched(a)
    ensures ReadByte(m, a) == 0 && AltReadByte(m, a) == 0
    ensures WriteByte(m, a, v) == m && AltWriteByte(m, a, v) == m
  {
  }

  /** The two versions read alike everywhere, and write alike except at 0xFF46 and 0xFFFF. */
  lemma VersionsAgree(m: Mem, a: u16, v: u8)
    ensures ReadByte(m, a) == AltReadByte(m, a)
    ensures a != DmaAddr && a != InterruptEnableAddr ==> WriteByte(m, a, v) == AltWriteByte(m, a, v)
  {
    Lcd.PredicatesDisjoint(a);
  }
}
