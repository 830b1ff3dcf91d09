/**
 * The memory bus (class MEM_BUS): address routing to the cartridge, the
 * three RAM regions and the IO registers, word writes, and the OAM DMA
 * transfer, all on the memory half of the machine. Routing goes in the
 * fixed order cartridge, WRAM, VRAM, HRAM, IO; an address none of them
 * claims stops the emulator (`NO_IMPL`). Object memory at 0xFE00-0xFE9F is
 * not among the routes.
 */
module Bus {
  import opened Bits
  import opened Types
  import opened EmuState
  import Dma
  import Cart
  import Ram
  import Ppu
  import Io

  /** An address one of the five routes claims. */
  predicate IsMapped(a: u16)
  {
    Cart.IsRomAddr(a) || Cart.IsExtRamAddr(a) || Ram.IsWramAddr(a) || Ram.IsVramAddr(a)
    || Ram.IsHramAddr(a) || Io.IsIoAddr(a)
  }

  /** A RAM address: WRAM, VRAM or HRAM. */
  predicate IsRamAddr(a: u16) { Ram.IsWramAddr(a) || Ram.IsVramAddr(a) || Ram.IsHramAddr(a) }

  function ReadByte(m: Mem, a: u16): (r: Result<u8>)
    ensures !IsMapped(a) <==> r == Fail(UnmappedRead(a))
  {
    if Cart.IsRomAddr(a) || Cart.IsExtRamAddr(a) then Cart.ReadByte(m.cart, a)
    else if Ram.IsWramAddr(a) then Ok(Ram.ReadWram(m.ram, a))
    else if Ram.IsVramAddr(a) then Ok(Ram.ReadVram(m.ram, a))
    else if Ram.IsHramAddr(a) then Ok(Ram.ReadHram(m.ram, a))
    else if Io.IsIoAddr(a) then Ok(Io.ReadByte(m, a))
    else Fail(UnmappedRead(a))
  }

  function WriteByte(m: Mem, a: u16, v: u8): (r: Result<Mem>)
    ensures !IsMapped(a) <==> r == Fail(UnmappedWrite(a))
  {
    if Cart.IsRomAddr(a) || Cart.IsExtRamAddr(a) then
      var c :- Cart.WriteByte(m.cart, a, v);
      Ok(m.(cart := c))
    else if Ram.IsWramAddr(a) then Ok(m.(ram := Ram.WriteWram(m.ram, a, v)))
    else if Ram.IsVramAddr(a) then Ok(m.(ram := Ram.WriteVram(m.ram, a, v)))
    else if Ram.IsHramAddr(a) then Ok(m.(ram := Ram.WriteHram(m.ram, a, v)))
    else if Io.IsIoAddr(a) then Ok(Io.WriteByte(m, a, v))
    else Fail(UnmappedWrite(a))
  }

  /** The low byte at `a`, then the high byte at `a + 1` (wrapping at 0xFFFF). */
  function WriteWord(m: Mem, a: u16, v: u16): Result<Mem>
  {
    var m1 :- WriteByte(m, a, Lo(v));
    WriteByte(m1, Wrap16(a + 1), Hi(v))
  }

  /** DMA_Start: what a write to 0xFF46 does. */
  function DmaStart(m: Mem, page: u8): (r: Mem)
    ensures r.dma.active && r.dma.startDelay == 2 && r.dma.value == page && r.dma.currentByte == 0
    ensures r == m.(dma := r.dma)
  {
    m.(dma := Dma.Start(m.dma, page))
  }

  function DmaTransferActive(m: Mem): bool { m.dma.active }

  /** The end of a copy tick: the new OAM, and the offset advanced. */
  function Copied(m: Mem, oam: Ppu.Oam): (r: Mem)
    ensures r == m.(oam := oam, dma := Dma.Next(m.dma))
  {
    m.(oam := oam, dma := Dma.Next(m.dma))
  }

  /**
   * DMA_Tick, with the copy going to OAM index `dmaCurrentByte` as a DMA
   * transfer means it to: idle does nothing, a waiting tick lowers the
   * delay, a copy tick reads the source byte through the bus, stores it and
   * advances.
   */
  function DmaTick(m: Mem): Result<Mem>
  {
    match Dma.Kind(m.dma)
    case Idle => Ok(m)
    case Wait => Ok(m.(dma := Dma.Next(m.dma)))
    case Copy =>
      var v :- ReadByte(m, Dma.SourceAddress(m.dma));
      Ok(Copied(m, m.oam[m.dma.currentByte := v]))
  }

  /** DMA_Tick as written: the raw offset goes to WriteOAM_Byte, which subtracts 0xFE00 from it. */
  function DmaTickAsWritten(m: Mem): Result<Mem>
  {
    match Dma.Kind(m.dma)
    case Idle => Ok(m)
    case Wait => Ok(m.(dma := Dma.Next(m.dma)))
    case Copy =>
      var v :- ReadByte(m, Dma.SourceAddress(m.dma));
      match Ppu.WriteOam(m.oam, m.dma.currentByte, v)
      case Fail(f) => Fail(f)
      case Ok(oam) => Ok(Copied(m, oam))
  }

  /** n DMA ticks in a row. */
  function DmaTicks(m: Mem, n: nat): Result<Mem>
    decreases n
  {
    if n == 0 then Ok(m)
    else
      var m1 :- DmaTick(m);
      DmaTicks(m1, n - 1)
  }

  /** The bus read of byte k of a page. */
  function SourceByte(m: Mem, page: u8, k: nat): Result<u8>
    requires k < 0x100
  {
    ReadByte(m, page * 0x100 + k)
  }

  // ---------------------------------------------------------------------
  // Properties
  // ---------------------------------------------------------------------

  /** The routes claim 0x0000-0xDFFF and 0xFF00-0xFFFF; echo RAM, OAM and 0xFEA0-0xFEFF are fatal. */
  lemma MappedAddresses(m: Mem, a: u16, v: u8)
    ensures IsMapped(a) <==> a <= 0xDFFF || a >= 0xFF00
    ensures 0xE000 <= a <= 0xFEFF ==> ReadByte(m, a) == Fail(UnmappedRead(a)) && WriteByte(m, a, v) == Fail(UnmappedWrite(a))
    ensures Ppu.IsOamAddr(a) ==> !IsMapped(a)
  {
  }

  /** The cartridge claims its addresses first; RAM and IO are reached only outside them. */
  lemma RoutesDisjoint(a: u16)
    ensures IsRamAddr(a) ==> !Cart.IsRomAddr(a) && !Cart.IsExtRamAddr(a) && !Io.IsIoAddr(a)
    ensures Io.IsIoAddr(a) ==> !Cart.IsRomAddr(a) && !Cart.IsExtRamAddr(a) && !Ram.IsHramAddr(a)
  {
  }

  /** A RAM write changes only the RAM record. */
  lemma RamWriteFrame(m: Mem, a: u16, v: u8)
    requires IsRamAddr(a)
    ensures WriteByte(m, a, v).Ok? && WriteByte(m, a, v).value == m.(ram := WriteByte(m, a, v).value.ram)
  {
  }

  /** Reads outside RAM do not look at the RAM record. */
  lemma ReadIgnoresRam(m: Mem, r: Ram.Ram, b: u16)
    requires !IsRamAddr(b)
    ensures ReadByte(m.(ram := r), b) == ReadByte(m, b)
  {
  }

  /** Write-then-read through the bus at a RAM address returns the value; every other address reads as before. */
  lemma RamWriteRead(m: Mem, a: u16, b: u16, v: u8)
    requires IsRamAddr(a)
    ensures WriteByte(m, a, v).Ok?
    ensures ReadByte(WriteByte(m, a, v).value, b) == if a == b then Ok(v) else ReadByte(m, b)
  {
    RamWriteFrame(m, a, v);
    var m' := WriteByte(m, a, v).value;
    if !IsRamAddr(b) {
      ReadIgnoresRam(m, m'.ram, b);
    } else {
      RamWriteReadIn(m, a, b, v);
    }
  }

  lemma RamWriteReadIn(m: Mem, a: u16, b: u16, v: u8)
    requires IsRamAddr(a) && IsRamAddr(b)
    ensures WriteByte(m, a, v).Ok?
    ensures ReadByte(WriteByte(m, a, v).value, b) == if a == b then Ok(v) else ReadByte(m, b)
  {
    Ram.RegionsDisjoint(a);
    Ram.RegionsDisjoint(b);
    Ram.WritesStayInRegion(m.ram, a, v);
    if Ram.IsWramAddr(a) && Ram.IsWramAddr(b) {
      Ram.WramWriteRead(m.ram, a, b, v);
    } else if Ram.IsVramAddr(a) && Ram.IsVramAddr(b) {
      Ram.VramWriteRead(m.ram, a, b, v);
    } else if Ram.IsHramAddr(a) && Ram.IsHramAddr(b) {
      Ram.HramWriteRead(m.ram, a, b, v);
    }
  }

  /** What a RAM address holds, region by region. */
  function RamRead(r: Ram.Ram, a: u16): u8
    requires IsRamAddr(a)
  {
    if Ram.IsWramAddr(a) then Ram.ReadWram(r, a)
    else if Ram.IsVramAddr(a) then Ram.ReadVram(r, a)
    else Ram.ReadHram(r, a)
  }

  /** The RAM record after a write to a RAM address. */
  function RamWrite(r: Ram.Ram, a: u16, v: u8): Ram.Ram
    requires IsRamAddr(a)
  {
    if Ram.IsWramAddr(a) then Ram.WriteWram(r, a, v)
    else if Ram.IsVramAddr(a) then Ram.WriteVram(r, a, v)
    else Ram.WriteHram(r, a, v)
  }

  /** At a RAM address the bus reads and writes the RAM record and nothing else. */
  lemma RamAccess(m: Mem, a: u16, v: u8)
    requires IsRamAddr(a)
    ensures ReadByte(m, a) == Ok(RamRead(m.ram, a))
    ensures WriteByte(m, a, v) == Ok(m.(ram := RamWrite(m.ram, a, v)))
  {
  }

  /** Write-then-read on the RAM record: the value at the written address, the old value elsewhere. */
  lemma RamReadWrite(r: Ram.Ram, a: u16, b: u16, v: u8)
    requires IsRamAddr(a) && IsRamAddr(b)
    ensures RamRead(RamWrite(r, a, v), b) == if a == b then v else RamRead(r, b)
  {
    Ram.RegionsDisjoint(a);
    Ram.RegionsDisjoint(b);
    if Ram.IsWramAddr(a) && Ram.IsWramAddr(b) {
      Ram.WramWriteRead(r, a, b, v);
    } else if Ram.IsVramAddr(a) && Ram.IsVramAddr(b) {
      Ram.VramWriteRead(r, a, b, v);
    } else if Ram.IsHramAddr(a) && Ram.IsHramAddr(b) {
      Ram.HramWriteRead(r, a, b, v);
    }
  }

  /** A word written into WRAM reads back low byte at `a`, high byte at `a + 1`. */
  lemma WriteWordReadBack(m: Mem, a: u16, v: u16)
    requires Ram.IsWramAddr(a) && Ram.IsWramAddr(a + 1)
    ensures WriteWord(m, a, v).Ok?
    ensures ReadByte(WriteWord(m, a, v).value, a) == Ok(Lo(v))
    ensures ReadByte(WriteWord(m, a, v).value, a + 1) == Ok(Hi(v))
    ensures Join(Hi(v), Lo(v)) == v
  {
    RamWriteRead(m, a, a, Lo(v));
    var m1 := WriteByte(m, a, Lo(v)).value;
    RamWriteRead(m1, a + 1, a, Hi(v));
    RamWriteRead(m1, a + 1, a + 1, Hi(v));
    JoinSplit(v);
  }

  /** An idle DMA tick changes nothing; a waiting tick only lowers the delay. */
  lemma DmaTickWaits(m: Mem)
    ensures !m.dma.active ==> DmaTick(m) == Ok(m)
    ensures m.dma.active && m.dma.startDelay > 0 ==>
      DmaTick(m) == Ok(m.(dma := m.dma.(startDelay := m.dma.startDelay - 1)))
  {
  }

  /**
   * A copy tick stores the bus byte at `page * 0x100 + offset` in OAM
   * index `offset`, leaves every other OAM byte, advances the offset and
   * ends the transfer after offset 159.
   */
  lemma DmaTickCopies(m: Mem)
    requires Dma.Kind(m.dma) == Dma.Copy
    ensures ReadByte(m, Dma.SourceAddress(m.dma)).Fail? ==> DmaTick(m).Fail?
    ensures ReadByte(m, Dma.SourceAddress(m.dma)).Ok? ==>
      var v := ReadByte(m, Dma.SourceAddress(m.dma)).value;
      var i := m.dma.currentByte;
      DmaTick(m).Ok?
      && DmaTick(m).value.oam == m.oam[i := v]
      && DmaTick(m).value.dma.currentByte == i + 1
      && (DmaTick(m).value.dma.active <==> i + 1 < 0xA0)
      && DmaTick(m).value == m.(oam := DmaTick(m).value.oam, dma := DmaTick(m).value.dma)
  {
  }

  /** The copy as written never succeeds: WriteOAM_Byte(offset) indexes 0x200 bytes past the slot. */
  lemma DmaTickAsWrittenFails(m: Mem)
    requires Dma.Kind(m.dma) == Dma.Copy && ReadByte(m, Dma.SourceAddress(m.dma)).Ok?
    ensures DmaTickAsWritten(m) == Fail(OamOutOfRange(m.dma.currentByte + 0x200))
    ensures DmaTick(m).Ok?
  {
    var i := m.dma.currentByte;
    var v := ReadByte(m, Dma.SourceAddress(m.dma)).value;
    Ppu.RawOffsetOutOfRange(m.oam, i, v);
  }

  /** The two versions agree on idle and waiting ticks. */
  lemma DmaTickVersionsAgree(m: Mem)
    requires Dma.Kind(m.dma) != Dma.Copy
    ensures DmaTickAsWritten(m) == DmaTick(m)
  {
  }

  /** The source of a DMA copy is read without looking at OAM or the DMA registers. */
  lemma ReadIgnoresOamAndDma(m: Mem, oam: Ppu.Oam, d: Dma.DmaState, a: u16)
    requires d.Valid()
    ensures ReadByte(m.(oam := oam, dma := d), a) == ReadByte(m, a)
  {
    Io.IoAddresses(a);
  }

  /** The copy phase from offset j on, for a machine that differs from `m` only in OAM and DMA. */
  lemma {:induction false} CopyRest(m: Mem, t: Mem, page: u8, j: nat)
    requires j < 0xA0
    requires t.dma == Dma.DmaState(true, j, page, 0)
    requires t == m.(oam := t.oam, dma := t.dma)
    requires forall k :: 0 <= k < 0xA0 ==> SourceByte(m, page, k).Ok?
    requires forall k :: 0 <= k < j ==> Ok(t.oam[k]) == SourceByte(m, page, k)
    ensures DmaTicks(t, 0xA0 - j).Ok?
    ensures var r := DmaTicks(t, 0xA0 - j).value;
      !r.dma.active && r == m.(oam := r.oam, dma := r.dma)
      && forall k :: 0 <= k < 0xA0 ==> Ok(r.oam[k]) == SourceByte(m, page, k)
    decreases 0xA0 - j
  {
    assert Dma.SourceAddress(t.dma) == page * 0x100 + j;
    ReadIgnoresOamAndDma(m, t.oam, t.dma, page * 0x100 + j);
    assert SourceByte(m, page, j).Ok?;
    DmaTickCopies(t);
    var t1 := DmaTick(t).value;
    assert DmaTicks(t, 0xA0 - j) == DmaTicks(t1, 0xA0 - j - 1);
    if j + 1 < 0xA0 {
      assert t1.dma == Dma.DmaState(true, j + 1, page, 0);
      CopyRest(m, t1, page, j + 1);
    }
  }

  /** The two waiting ticks after DMA_Start leave the delay at 0 and nothing else changed. */
  lemma WaitPhase(m: Mem, page: u8) returns (m2: Mem)
    ensures m2 == m.(dma := Dma.DmaState(true, 0, page, 0))
    ensures DmaTicks(DmaStart(m, page), 2 + 0xA0) == DmaTicks(m2, 0xA0)
  {
    var m0 := DmaStart(m, page);
    var m1 := m0.(dma := m0.dma.(startDelay := 1));
    m2 := m0.(dma := m0.dma.(startDelay := 0));
    assert DmaTick(m0) == Ok(m1);
    assert DmaTick(m1) == Ok(m2);
    assert DmaTicks(m0, 2 + 0xA0) == DmaTicks(m1, 1 + 0xA0);
  }

  /**
   * A whole transfer: after DMA_Start(page), 162 ticks (2 waiting, 160
   * copying) fill OAM index k with the bus byte at `page * 0x100 + k`, end
   * the transfer and change nothing else, provided every source byte reads.
   */
  lemma DmaTransfer(m: Mem, page: u8)
    requires forall k :: 0 <= k < 0xA0 ==> SourceByte(m, page, k).Ok?
    ensures DmaTicks(DmaStart(m, page), 2 + 0xA0).Ok?
    ensures var r := DmaTicks(DmaStart(m, page), 2 + 0xA0).value;
      !r.dma.active && r == m.(oam := r.oam, dma := r.dma)
      && forall k :: 0 <= k < 0xA0 ==> Ok(r.oam[k]) == SourceByte(m, page, k)
  {
    var m2 := WaitPhase(m, page);
    CopyRest(m, m2, page, 0);
  }
}
