/**
 * The emulated machine as the source holds it: the singletons behind
 * EMU::Get*() gathered into one object whose fields are updated in place.
 * The CPU state, IF and IE, the DMA and timer registers and the counters
 * are fields; WRAM, VRAM, HRAM, OAM, the serial bytes, external RAM and the
 * debug buffer are arrays. Each method is proved against the value model:
 * MemorySnapshot() and Snapshot() read the object back as the records of
 * module EmuState, and every method's postcondition says what it does to
 * them in terms of the functions of Bus, Emu and Cpu, whose properties are
 * proved there.
 */
module Console {
  import opened Bits
  import opened Types
  import opened CpuState
  import Flags = CpuState
  import opened EmuState
  import Dma
  import Timer
  import Ram
  import Ppu
  import Cart
  import Lcd
  import Io
  import Bus
  import Emu
  import Registers
  import CpuMemory
  import Cpu

  /** A WRAM bank selector: one of the seven switchable banks. */
  type WramBank = b: u8 | b < 7

  /** A VRAM bank selector: one of the two banks. */
  type VramBank = b: u8 | b < 2

  /** An external RAM bank selector: one of the sixteen banks. */
  type ExtRamBank = b: u8 | b < 16

  /** A ROM image large enough to hold the cartridge header. */
  type RomImage = r: seq<u8> | |r| >= 0x150 witness Zeros(0x150)

  class GameBoy {
    // class CPU: registers, the fetch latches, halted, IME and the pending EI
    var cpu: CpuState
    // CPU::IF_Flags and CPU::IE_Flags
    var intFlags: u8
    var ieFlags: u8
    // MEM_BUS: dmaTransferActive, dmaCurrentByte, dmaValue, dmaStartDelay
    var dmaActive: bool
    var dmaCurrentByte: u8
    var dmaValue: u8
    var dmaStartDelay: u8
    // class Timer
    var div: u16
    var tima: u8
    var tma: u8
    var tac: u8
    var counter: i32
    var divCounter: u16
    // class RAM
    const wram0: array<u8>
    const wramBanks: array<u8>
    var wramBank: WramBank
    const vram: array<u8>
    var vramBank: VramBank
    const hram: array<u8>
    // class PPU
    const oam: array<u8>
    // class IO
    const serialData: array<u8>
    // class Cartridge
    var rom: RomImage
    const extRam: array<u8>
    var extRamBank: ExtRamBank
    // class EMU
    var cycles: u32
    const debugBuffer: array<u8>
    var debugSize: u32
    var msgUpdated: bool

    /** No two of the arrays are the same object. */
    predicate Separate()
    {
      && wram0 != wramBanks && wram0 != vram && wram0 != hram && wram0 != oam
      && wram0 != serialData && wram0 != extRam && wram0 != debugBuffer
      && wramBanks != vram && wramBanks != hram && wramBanks != oam
      && wramBanks != serialData && wramBanks != extRam && wramBanks != debugBuffer
      && vram != hram && vram != oam && vram != serialData && vram != extRam && vram != debugBuffer
      && hram != oam && hram != serialData && hram != extRam && hram != debugBuffer
      && oam != serialData && oam != extRam && oam != debugBuffer
      && serialData != extRam && serialData != debugBuffer
      && extRam != debugBuffer
    }

    /** Separate arrays of the right sizes. */
    predicate Valid()
      reads this
    {
      Separate() && Sized()
    }

    /** The sizes of the source's arrays and an in-range DMA offset. */
    predicate Sized()
      reads this
    {
      && wram0.Length == 0x1000 && wramBanks.Length == 7 * 0x1000
      && vram.Length == 2 * 0x2000 && hram.Length == 0x7F
      && oam.Length == 0xA0 && serialData.Length == 2
      && extRam.Length == 16 * 0x2000
      && debugBuffer.Length == DebugBufferSize
      && (dmaActive ==> dmaCurrentByte < Dma.TransferLength)
    }

    function DmaRegisters(): (d: Dma.DmaState)
      reads this
    {
      Dma.DmaState(dmaActive, dmaCurrentByte, dmaValue, dmaStartDelay)
    }

    function TimerRegisters(): (t: Timer.TimerState)
      reads this
    {
      Timer.TimerState(div, tima, tma, tac, counter, divCounter)
    }

    /** Everything the bus reaches, as the value model's memory record. */
    function MemorySnapshot(): (m: Mem)
      requires Sized()
      reads this, wram0, wramBanks, vram, hram, oam, serialData, extRam
    {
      Memory(intFlags, ieFlags, DmaRegisters(), TimerRegisters(),
             Ram.RamState(wram0[..], wramBanks[..], wramBank, vram[..], vramBank, hram[..]),
             oam[..], serialData[..], Cart.CartState(rom, extRam[..], extRamBank))
    }

    /** The whole machine, as the value model's state record. */
    function Snapshot(): (s: Machine)
      requires Sized()
      reads this, wram0, wramBanks, vram, hram, oam, serialData, extRam, debugBuffer
    {
      State(cpu, MemorySnapshot(), cycles, DebugState(debugBuffer[..], debugSize, msgUpdated))
    }

    /** The emulator as constructed, with the cartridge loaded. */
    constructor(cart: Cart.Cart)
      ensures Valid() && Snapshot() == EmuState.Initial(cart)
    {
      cpu := InitialCpu;
      intFlags, ieFlags := 0, 0;
      dmaActive, dmaCurrentByte, dmaValue, dmaStartDelay := false, 0, 0, 0;
      div, tima, tma, tac, counter, divCounter := 0xABCC, 0, 0, 0, 1024, 0;
      wram0 := new u8[0x1000](_ => 0);
      wramBanks := new u8[7 * 0x1000](_ => 0);
      wramBank := 0;
      vram := new u8[2 * 0x2000](_ => 0);
      vramBank := 0;
      hram := new u8[0x7F](_ => 0);
      oam := new u8[0xA0](_ => 0);
      serialData := new u8[2](_ => 0);
      rom := cart.rom;
      extRam := new u8[16 * 0x2000](i requires 0 <= i < 16 * 0x2000 => cart.extRam[i]);
      extRamBank := cart.extRamBank;
      cycles := 0;
      debugBuffer := new u8[DebugBufferSize](_ => 0);
      debugSize := 0;
      msgUpdated := false;
      new;
      assert wram0[..] == Zeros(0x1000);
      assert wramBanks[..] == Zeros(7 * 0x1000);
      assert vram[..] == Zeros(2 * 0x2000);
      assert hram[..] == Zeros(0x7F);
      assert oam[..] == Zeros(0xA0);
      assert serialData[..] == [0, 0];
      assert extRam[..] == cart.extRam;
      assert debugBuffer[..] == Zeros(DebugBufferSize);
    }

    // -------------------------------------------------------------------
    // Reads
    // -------------------------------------------------------------------

    /** Cartridge::ReadByte: the selected ext-RAM bank (a fault with no banks), else the ROM image. */
    method ReadCartridge(a: u16) returns (r: Result<u8>)
      requires Valid()
      ensures r == Cart.ReadByte(MemorySnapshot().cart, a)
    {
      if Cart.IsExtRamAddr(a) {
        if Cart.GetExtRamBankCount(rom[Cart.RamSizeOffset]) == 0 {
          r := Fail(NoExtRamRead(a));
        } else {
          r := Ok(extRam[extRamBank * 0x2000 + (a - Cart.ExtRamStart)]);
        }
      } else if (a as int) < |rom| {
        r := Ok(rom[a]);
      } else {
        r := Fail(RomOutOfRange(a));
      }
    }

    /** IO::ReadByte: serial bytes, the LCD constants, the timer, IF, IE, OAM unless DMA runs, else 0. */
    method ReadIo(a: u16) returns (v: u8)
      requires Valid()
      ensures v == Io.ReadByte(MemorySnapshot(), a)
    {
      if a == Io.SerialData {
        v := serialData[0];
      } else if a == Io.SerialControl {
        v := serialData[1];
      } else if Lcd.IsBcpsAddress(a) || Lcd.IsControlAddress(a) || Lcd.IsPosScrollAddress(a) || Lcd.IsStatusAddress(a) {
        v := Lcd.ReadByte(a);
      } else if Timer.IsTimerAddr(a) {
        v := Timer.ReadByte(TimerRegisters(), a).value;
      } else if a == Io.InterruptFlagAddr {
        v := intFlags;
      } else if a == Io.InterruptEnableAddr {
        v := ieFlags;
      } else if Ppu.IsOamAddr(a) {
        v := if dmaActive then 0xFF else oam[a - Ppu.OamStart];
      } else {
        v := 0;
      }
    }

    /** MEM_BUS::ReadByte: cartridge, WRAM, VRAM, HRAM, IO in that order; any other address is NO_IMPL. */
    method ReadByte(a: u16) returns (r: Result<u8>)
      requires Valid()
      ensures r == Bus.ReadByte(MemorySnapshot(), a)
    {
      if Cart.IsRomAddr(a) || Cart.IsExtRamAddr(a) {
        r := ReadCartridge(a);
      } else if Ram.IsWramAddr(a) {
        var t := Ram.WramOffset(a);
        if t < Ram.WramBankSize {
          r := Ok(wram0[t]);
        } else {
          r := Ok(wramBanks[Ram.BankedIndex(wramBank, t - Ram.WramBankSize)]);
        }
      } else if Ram.IsVramAddr(a) {
        r := Ok(vram[vramBank * 0x2000 + Wrap16(a - Ram.VramStart)]);
      } else if Ram.IsHramAddr(a) {
        r := Ok(hram[Wrap16(a - Ram.HramStart)]);
      } else if Io.IsIoAddr(a) {
        var v := ReadIo(a);
        r := Ok(v);
      } else {
        r := Fail(UnmappedRead(a));
      }
    }

    // -------------------------------------------------------------------
    // Writes
    // -------------------------------------------------------------------

    /** Cartridge::WriteByte: into the selected ext-RAM bank when there are banks; a ROM address is NO_IMPL. */
    method WriteCartridge(a: u16, v: u8) returns (r: Result<()>)
      requires Valid()
      modifies extRam
      ensures Valid()
      ensures var w := Cart.WriteByte(old(MemorySnapshot()).cart, a, v);
        SameOutcome(r, w) && MemorySnapshot() == old(MemorySnapshot()).(cart := if w.Ok? then w.value else old(MemorySnapshot()).cart)
    {
      if Cart.IsExtRamAddr(a) {
        if Cart.GetExtRamBankCount(rom[Cart.RamSizeOffset]) == 0 {
          r := Fail(NoExtRamWrite(a));
        } else {
          extRam[extRamBank * 0x2000 + (a - Cart.ExtRamStart)] := v;
          r := Ok(());
        }
      } else {
        r := Fail(RomWrite(a));
      }
    }

    /** Timer::UpdateClockFrequency: the counter reloads with the period TAC & 3 selects. */
    method UpdateClockFrequency()
      requires Valid()
      modifies this
      ensures Valid()
      ensures Snapshot() == old(Snapshot()).(mem := old(MemorySnapshot()).(timer := Timer.UpdateClockFrequency(old(TimerRegisters()))))
    {
      var freq := tac % 4;
      if freq == 0 {
        counter := 1024;
      } else if freq == 1 {
        counter := 16;
      } else if freq == 2 {
        counter := 64;
      } else {
        counter := 256;
      }
    }

    /** Timer::WriteByte at a timer address: DIV resets, TIMA and TMA store, TAC reloads the counter if the frequency changed. */
    method WriteTimer(a: u16, v: u8)
      requires Valid() && Timer.IsTimerAddr(a)
      modifies this
      ensures Valid()
      ensures Snapshot() == old(Snapshot()).(mem := old(MemorySnapshot()).(timer := Timer.WriteByte(old(TimerRegisters()), a, v).value))
    {
      if a == 0xFF04 {
        div := 0;
      } else if a == 0xFF05 {
        tima := v;
      } else if a == 0xFF06 {
        tma := v;
      } else {
        var currentFrequency := tac % 4;
        tac := v;
        var newFrequency := tac % 4;
        if currentFrequency != newFrequency {
          UpdateClockFrequency();
        }
      }
    }

    /** MEM_BUS::DMA_Start: a transfer from page `start`, two ticks away. */
    method DmaStart(start: u8)
      requires Valid()
      modifies this
      ensures Valid()
      ensures Snapshot() == old(Snapshot()).(mem := Bus.DmaStart(old(MemorySnapshot()), start))
    {
      dmaActive := true;
      dmaStartDelay := 2;
      dmaValue := start;
      dmaCurrentByte := 0;
      assert DmaRegisters() == Dma.Start(old(DmaRegisters()), start);
      assert MemorySnapshot() == old(MemorySnapshot()).(dma := DmaRegisters());
    }

    /** IO::WriteByte: serial bytes, the timer, IF, the DMA register, OAM unless DMA runs; anything else is dropped. */
    method WriteIo(a: u16, v: u8)
      requires Valid()
      modifies this, serialData, oam
      ensures Valid()
      ensures Snapshot() == old(Snapshot()).(mem := Io.WriteByte(old(MemorySnapshot()), a, v))
    {
      if a == Io.SerialData {
        serialData[0] := v;
      } else if a == Io.SerialControl {
        serialData[1] := v;
      } else if Timer.IsTimerAddr(a) {
        WriteTimer(a, v);
      } else if a == Io.InterruptFlagAddr {
        intFlags := v;
      } else if a == Io.DmaAddr {
        DmaStart(v);
      } else if Ppu.IsOamAddr(a) {
        if !dmaActive {
          oam[a - Ppu.OamStart] := v;
        }
      }
    }

    /** MEM_BUS::WriteByte: the routes of ReadByte in the same order, with the same NO_IMPL default. */
    method WriteByte(a: u16, v: u8) returns (r: Result<()>)
      requires Valid()
      modifies this, wram0, wramBanks, vram, hram, oam, serialData, extRam
      ensures Valid()
      ensures var w := Bus.WriteByte(old(MemorySnapshot()), a, v);
        SameOutcome(r, w) && Snapshot() == old(Snapshot()).(mem := if w.Ok? then w.value else old(MemorySnapshot()))
    {
      if Cart.IsRomAddr(a) || Cart.IsExtRamAddr(a) {
        r := WriteCartridge(a, v);
      } else if Ram.IsWramAddr(a) {
        var t := Ram.WramOffset(a);
        if t < Ram.WramBankSize {
          wram0[t] := v;
        } else {
          wramBanks[Ram.BankedIndex(wramBank, t - Ram.WramBankSize)] := v;
        }
        r := Ok(());
      } else if Ram.IsVramAddr(a) {
        vram[vramBank * 0x2000 + Wrap16(a - Ram.VramStart)] := v;
        r := Ok(());
      } else if Ram.IsHramAddr(a) {
        hram[Wrap16(a - Ram.HramStart)] := v;
        r := Ok(());
      } else if Io.IsIoAddr(a) {
        WriteIo(a, v);
        r := Ok(());
      } else {
        r := Fail(UnmappedWrite(a));
      }
    }

    /** MEM_BUS::WriteWord: the low byte at `a`, then the high byte at `a + 1`. */
    method WriteWord(a: u16, v: u16) returns (r: Result<()>)
      requires Valid()
      modifies this, wram0, wramBanks, vram, hram, oam, serialData, extRam
      ensures Valid()
      ensures var w := Bus.WriteWord(old(MemorySnapshot()), a, v);
        SameOutcome(r, w) && (w.Ok? ==> Snapshot() == old(Snapshot()).(mem := w.value))
    {
      r := WriteByte(a, Lo(v));
      if r.Ok? {
        r := WriteByte(Wrap16(a + 1), Hi(v));
      }
    }
    // -------------------------------------------------------------------
    // Interrupt requests, the timer, DMA and the cycle loop
    // -------------------------------------------------------------------

    /** CPU::RequestInterrupt: the source's bit ORed into IF. */
    method RequestInterrupt(t: IntType)
      requires Valid()
      modifies this
      ensures Valid()
      ensures Snapshot() == old(Snapshot()).(mem := Cpu.Request(old(MemorySnapshot()), t))
    {
      intFlags := Flags.RequestInterrupt(intFlags, t);
    }

    /**
     * Timer::Tick(amount): the divider part, then the counter part. The
     * counter part's overflow requests the Timer interrupt.
     */
    method TimerTick(amount: u32)
      requires Valid()
      modifies this
      ensures Valid()
      ensures var t := Timer.Tick(old(TimerRegisters()), amount);
        Snapshot() == old(Snapshot()).(mem := old(MemorySnapshot()).(timer := t.timer, intFlags := Emu.RequestIf(old(intFlags), t.interrupt)))
    {
      TickDivider(amount);
      TickCounter(amount);
    }

    /** The divider: the ticks are counted, and once 255 are reached the count restarts and DIV increments. */
    method TickDivider(amount: u32)
      requires Valid()
      modifies this
      ensures Valid()
      ensures Snapshot() == old(Snapshot()).(mem := old(MemorySnapshot()).(timer := Timer.TickDivider(old(TimerRegisters()), amount)))
    {
      divCounter := Wrap16(divCounter + amount);
      if divCounter >= 255 {
        divCounter := 0;
        div := Wrap16(div + 1);
      }
    }

    /**
     * The counter: with TAC bit 2 set it runs down, and on reaching zero it
     * reloads and TIMA increments, overflowing to TMA with a Timer interrupt
     * request.
     */
    method TickCounter(amount: u32)
      requires Valid()
      modifies this
      ensures Valid()
      ensures var t := Timer.TickCounter(old(TimerRegisters()), amount);
        Snapshot() == old(Snapshot()).(mem := old(MemorySnapshot()).(timer := t.timer, intFlags := Emu.RequestIf(old(intFlags), t.interrupt)))
    {
      if Bit(tac, 2) == 1 {
        counter := WrapI32(counter - amount);
        if counter <= 0 {
          UpdateClockFrequency();
          StepTima();
        }
      }
    }

    /** TIMA counts up; from 0xFF it reloads TMA and requests the Timer interrupt. */
    method StepTima()
      requires Valid()
      modifies this
      ensures Valid()
      ensures var tm := old(TimerRegisters()); var overflow := tm.tima == 0xFF;
        Snapshot() == old(Snapshot()).(mem := old(MemorySnapshot()).(
          timer := tm.(tima := if overflow then tm.tma else tm.tima + 1),
          intFlags := Emu.RequestIf(old(intFlags), overflow)))
    {
      if tima == 0xFF {
        tima := tma;
        RequestInterrupt(IntType.Timer);
      } else {
        tima := tima + 1;
      }
    }

    /**
     * The DMA tick of MEM_BUS::DMA_Tick with its copy corrected: nothing
     * without a transfer, a lower delay while it waits, otherwise the source
     * byte read through the bus is stored at OAM index `dmaCurrentByte`,
     * which then advances; the transfer ends after the 160th byte. As
     * written, the source stores through the PPU's 0xFE00-based OAM writer
     * with the bare offset, which is out of range (Bus.DmaTickAsWritten).
     */
    method DmaTick() returns (r: Result<()>)
      requires Valid()
      modifies this, oam
      ensures Valid()
      ensures var d := Bus.DmaTick(old(MemorySnapshot()));
        SameOutcome(r, d) && (d.Ok? ==> Snapshot() == old(Snapshot()).(mem := d.value))
    {
      if !dmaActive {
        return Ok(());
      }
      if dmaStartDelay > 0 {
        dmaStartDelay := dmaStartDelay - 1;
        return Ok(());
      }
      var newValue :- ReadByte(dmaValue * 0x100 + dmaCurrentByte);
      StoreDmaByte(newValue);
      r := Ok(());
    }

    /** The end of a copy tick: the byte stored at OAM index `dmaCurrentByte`, which then advances. */
    method StoreDmaByte(v: u8)
      requires Valid() && dmaActive && dmaStartDelay == 0
      modifies this, oam
      ensures Valid()
      ensures var m := old(MemorySnapshot());
        Snapshot() == old(Snapshot()).(mem := Bus.Copied(m, m.oam[m.dma.currentByte := v]))
    {
      oam[dmaCurrentByte] := v;
      dmaCurrentByte := dmaCurrentByte + 1;
      dmaActive := dmaCurrentByte < 0xA0;
    }

    /**
     * EMU::Cycle(amount): nothing for 0; otherwise `amount` machine cycles.
     * A fault of a DMA read ends the loop.
     */
    method Cycle(amount: u8) returns (r: Result<()>)
      requires Valid()
      modifies this, oam
      ensures Valid()
      ensures var c := Emu.Cycle(old(Snapshot()), amount);
        SameOutcome(r, c) && (c.Ok? ==> Snapshot() == c.value)
    {
      if amount == 0 {
        return Ok(());
      }
      ghost var s0 := Snapshot();
      var i: u8 := 0;
      while i < amount
        invariant Valid() && i <= amount
        invariant Emu.Cycle(s0, i) == Ok(Snapshot())
      {
        Emu.CycleStep(s0, i);
        r := MachineCycle();
        if r.Fail? {
          Emu.CycleFaultStays(s0, i + 1, amount);
          return;
        }
        i := i + 1;
      }
      r := Ok(());
    }

    /** One clock tick of EMU::Cycle: `cycles` increments and the timer advances by one. */
    method ClockTick()
      requires Valid()
      modifies this
      ensures Valid()
      ensures Snapshot() == old(Snapshot()).(mem := Emu.ClockTick(old(MemorySnapshot())), cycles := Wrap32(old(cycles) + 1))
    {
      cycles := Wrap32(cycles + 1);
      TimerTick(1);
    }

    /**
     * One pass of the outer loop of EMU::Cycle: four clock ticks, each
     * `cycles++` and a timer tick (PPU::Tick is not part of this model),
     * then one DMA tick.
     */
    method MachineCycle() returns (r: Result<()>)
      requires Valid()
      modifies this, oam
      ensures Valid()
      ensures var m := Emu.MachineCycle(old(MemorySnapshot()));
        SameOutcome(r, m) && (m.Ok? ==> Snapshot() == old(Snapshot()).(mem := m.value, cycles := Emu.Clock(old(cycles), 1)))
    {
      ghost var s0 := Snapshot();
      var n := 0;
      while n < 4
        invariant Valid() && n <= 4
        invariant Snapshot() == s0.(mem := Emu.ClockTicks(s0.mem, n), cycles := Wrap32(s0.cycles + n))
      {
        Emu.Wrap32Add(s0.cycles + n, 1);
        ClockTick();
        n := n + 1;
      }
      Emu.FourClockTicks(s0.mem);
      r := DmaTick();
    }

    /**
     * EMU::DebugUpdate: a byte the test ROM sends over the serial port is
     * appended to the debug buffer; see Emu.DebugUpdate.
     */
    method DebugUpdate() returns (r: Result<()>)
      requires Valid()
      modifies this, wram0, wramBanks, vram, hram, oam, serialData, extRam, debugBuffer
      ensures Valid()
      ensures var d := Emu.DebugUpdate(old(Snapshot()));
        SameOutcome(r, d) && (d.Ok? ==> Snapshot() == d.value)
    {
      var control :- ReadByte(0xFF02);
      if control != Emu.TransferRequest {
        return Ok(());
      }
      StartMessage();
      r := DebugReceive();
    }

    /** The start of a message over old text clears the buffer. */
    method StartMessage()
      requires Valid()
      modifies debugBuffer
      ensures Valid() && Snapshot() == Emu.StartMessage(old(Snapshot()))
    {
      if debugSize == 0 && debugBuffer[0] != 0 {
        ClearDebugBuffer();
      }
    }

    /** The serial byte is stored in the buffer and 0xFF02 reset; a closing newline completes the message. */
    method DebugReceive() returns (r: Result<()>)
      requires Valid()
      modifies this, wram0, wramBanks, vram, hram, oam, serialData, extRam, debugBuffer
      ensures Valid()
      ensures var d := Emu.DebugReceive(old(Snapshot()));
        SameOutcome(r, d) && (d.Ok? ==> Snapshot() == d.value)
    {
      var newChar :- ReadByte(0xFF01);
      if debugSize >= DebugBufferSize as u32 {
        return Fail(DebugBufferOverflow);
      }
      StoreDebugByte(newChar);
      var w := WriteByte(0xFF02, 0);
      if w.Fail? {
        return w;
      }
      CloseDebugLine(newChar);
      r := Ok(());
    }

    /** The received byte goes to the buffer at the current size, which grows by one. */
    method StoreDebugByte(c: u8)
      requires Valid() && debugSize < DebugBufferSize as u32
      modifies this, debugBuffer
      ensures Valid()
      ensures var s := old(Snapshot());
        Snapshot() == s.(debug := s.debug.(buffer := s.debug.buffer[s.debug.size := c], size := s.debug.size + 1))
    {
      debugBuffer[debugSize] := c;
      debugSize := debugSize + 1;
    }

    /** A newline that closes a blank line or a message that began with one completes the message. */
    method CloseDebugLine(c: u8)
      requires Valid() && 1 <= debugSize <= DebugBufferSize as u32
      modifies this
      ensures Valid()
      ensures var s := old(Snapshot()); var b := s.debug.buffer; var n := s.debug.size as int;
        Snapshot() == if c == Emu.Newline && n >= 2 && (b[n - 2] == Emu.Newline || b[0] == Emu.Newline)
          then s.(debug := s.debug.(size := 0, msgUpdated := true)) else s
    {
      if c == Emu.Newline && debugSize >= 2
        && (debugBuffer[debugSize - 2] == Emu.Newline || debugBuffer[0] == Emu.Newline) {
        msgUpdated := true;
        debugSize := 0;
      }
    }

    /** `DebugBuffer = {}`: every byte of the buffer becomes 0. */
    method ClearDebugBuffer()
      requires Valid()
      modifies debugBuffer
      ensures debugBuffer[..] == Zeros(DebugBufferSize)
    {
      var i := 0;
      while i < debugBuffer.Length
        invariant i <= debugBuffer.Length
        invariant forall k :: 0 <= k < i ==> debugBuffer[k] == 0
      {
        debugBuffer[i] := 0;
        i := i + 1;
      }
    }

    /** EMU::DebugPrint: a finished message is handed to the console (not modelled) and the flag cleared. */
    method DebugPrint()
      requires Valid()
      modifies this
      ensures Valid() && Snapshot() == Emu.DebugPrint(old(Snapshot()))
    {
      if msgUpdated {
        msgUpdated := false;
      }
    }

    /** CPU::Stack_PushByte: SP goes down by one, then the byte is written at SP. */
    method PushByte(v: u8) returns (r: Result<()>)
      requires Valid()
      modifies this, wram0, wramBanks, vram, hram, oam, serialData, extRam
      ensures Valid()
      ensures var p := CpuMemory.PushByte(old(Snapshot()), v);
        SameOutcome(r, p) && (p.Ok? ==> Snapshot() == p.value)
    {
      cpu := cpu.(regs := cpu.regs.Decrement(Types.SP));
      r := WriteByte(cpu.regs.sp, v);
    }

    /** CPU::Stack_PushWord: the high byte, then the low byte. */
    method PushWord(v: u16) returns (r: Result<()>)
      requires Valid()
      modifies this, wram0, wramBanks, vram, hram, oam, serialData, extRam
      ensures Valid()
      ensures var p := CpuMemory.PushWord(old(Snapshot()), v);
        SameOutcome(r, p) && (p.Ok? ==> Snapshot() == p.value)
    {
      var u :- PushByte(Hi(v));
      r := PushByte(Lo(v));
    }

    /**
     * The executeInterrupt lambda of CPU::HandleInterrupts: a source that is
     * requested and enabled is serviced (see Cpu.Service) and `taken` says so;
     * otherwise nothing changes.
     */
    method ExecuteInterrupt(t: IntType) returns (r: Result<()>, taken: bool)
      requires Valid()
      modifies this, wram0, wramBanks, vram, hram, oam, serialData, extRam
      ensures Valid()
      ensures taken <==> Cpu.Requested(old(MemorySnapshot()), t)
      ensures taken ==> var sv := Cpu.Service(old(Snapshot()), t);
        SameOutcome(r, sv) && (sv.Ok? ==> Snapshot() == sv.value)
      ensures !taken ==> r.Ok? && Snapshot() == old(Snapshot())
    {
      if !(IsInterruptSet(intFlags, t) && IsInterruptSet(ieFlags, t)) {
        return Ok(()), false;
      }
      taken := true;
      r := Service(t);
    }

    /** The taken branch of executeInterrupt: PC pushed and set to the vector, the IF bit cleared, `halted` and IME cleared. */
    method Service(t: IntType) returns (r: Result<()>)
      requires Valid()
      modifies this, wram0, wramBanks, vram, hram, oam, serialData, extRam
      ensures Valid()
      ensures var sv := Cpu.Service(old(Snapshot()), t);
        SameOutcome(r, sv) && (sv.Ok? ==> Snapshot() == sv.value)
    {
      ghost var s0 := Snapshot();
      r := PushWord(cpu.regs.pc);
      if r.Fail? {
        assert Cpu.Service(s0, t) == Fail(r.fault);
        return;
      }
      assert CpuMemory.PushWord(s0, s0.cpu.regs.pc) == Ok(Snapshot());
      EnterHandler(t);
    }

    /** The rest of the taken branch, after the push: PC at the vector, the IF bit cleared, `halted` and IME cleared. */
    method EnterHandler(t: IntType)
      requires Valid()
      modifies this
      ensures Valid()
      ensures var s := old(Snapshot());
        Snapshot() == s.(cpu := s.cpu.(regs := s.cpu.regs.(pc := Cpu.Vector(t)), halted := false, interruptsEnabled := false),
                         mem := s.mem.(intFlags := AcknowledgeInterrupt(s.mem.intFlags, t)))
    {
      cpu := cpu.(regs := cpu.regs.(pc := Cpu.Vector(t)), halted := false, interruptsEnabled := false);
      intFlags := AcknowledgeInterrupt(intFlags, t);
    }

    /** CPU::HandleInterrupts: the five sources in priority order; the first taken ends the search. */
    method HandleInterrupts() returns (r: Result<()>)
      requires Valid()
      modifies this, wram0, wramBanks, vram, hram, oam, serialData, extRam
      ensures Valid()
      ensures var h := Cpu.HandleInterrupts(old(Snapshot()));
        SameOutcome(r, h) && (h.Ok? ==> Snapshot() == h.value)
    {
      var taken;
      r, taken := ExecuteInterrupt(VBlank);
      if taken { return; }
      r, taken := ExecuteInterrupt(LcdStat);
      if taken { return; }
      r, taken := ExecuteInterrupt(IntType.Timer);
      if taken { return; }
      r, taken := ExecuteInterrupt(Serial);
      if taken { return; }
      r, taken := ExecuteInterrupt(Joypad);
    }

    /**
     * CPU::Step: the instruction half, or one machine cycle while halted,
     * then the interrupt tail. The source always returns true; a fault of the
     * model is the only other outcome.
     */
    method Step() returns (r: Result<()>)
      requires Valid()
      modifies this, wram0, wramBanks, vram, hram, oam, serialData, extRam, debugBuffer
      ensures Valid()
      ensures var x := Cpu.Step(old(Snapshot()));
        SameOutcome(r, x) && (x.Ok? ==> Snapshot() == x.value)
    {
      if !cpu.halted {
        var u :- RunInstruction();
      } else {
        var u :- HaltedCycle();
      }
      r := InterruptTail();
    }

    /** The halted branch of CPU::Step: one machine cycle, and any bit of IF ends the halt. */
    method HaltedCycle() returns (r: Result<()>)
      requires Valid()
      modifies this, oam
      ensures Valid()
      ensures var x := Cpu.HaltedCycle(old(Snapshot()));
        SameOutcome(r, x) && (x.Ok? ==> Snapshot() == x.value)
    {
      var u :- Cycle(1);
      if intFlags != 0 {
        cpu := cpu.(halted := false);
      }
      r := Ok(());
    }

    /** The end of CPU::Step: interrupts under IME, then a pending EI becomes IME. */
    method InterruptTail() returns (r: Result<()>)
      requires Valid()
      modifies this, wram0, wramBanks, vram, hram, oam, serialData, extRam
      ensures Valid()
      ensures var x := Cpu.InterruptTail(old(Snapshot()));
        SameOutcome(r, x) && (x.Ok? ==> Snapshot() == x.value)
    {
      if cpu.interruptsEnabled {
        var u :- HandleInterrupts();
        SetLatches(cpu.interruptsEnabled, false);
      }
      if cpu.enableInterrupts {
        SetLatches(true, true);
      }
      r := Ok(());
    }

    /** Sets IME and the pending enable; nothing else changes. */
    method SetLatches(ime: bool, pending: bool)
      requires Valid()
      modifies this
      ensures Valid()
      ensures Snapshot() == old(Snapshot()).(cpu := old(cpu).(interruptsEnabled := ime, enableInterrupts := pending))
    {
      cpu := cpu.(interruptsEnabled := ime, enableInterrupts := pending);
    }

    /**
     * The instruction half of CPU::Step (fetch, operand, the serial debug
     * sink, execute), computed on the value model and stored back.
     */
    method RunInstruction() returns (r: Result<()>)
      requires Valid()
      modifies this, wram0, wramBanks, vram, hram, oam, serialData, extRam, debugBuffer
      ensures Valid()
      ensures var x := Cpu.RunInstruction(old(Snapshot()));
        SameOutcome(r, x) && (x.Ok? ==> Snapshot() == x.value)
    {
      var next := Cpu.RunInstruction(Snapshot());
      if next.Fail? {
        return Fail(next.fault);
      }
      Load(next.value);
      r := Ok(());
    }

    /** Stores a machine record into the object: every field and every array. */
    method Load(s: Machine)
      requires Valid()
      modifies this, wram0, wramBanks, vram, hram, oam, serialData, extRam, debugBuffer
      ensures Valid() && Snapshot() == s
    {
      LoadMemory(s.mem);
      LoadEmu(s);
    }

    /** The CPU state, the cycle counter and the debug buffer of a machine record. */
    method LoadEmu(s: Machine)
      requires debugBuffer.Length == DebugBufferSize
      modifies this`cpu, this`cycles, this`debugSize, this`msgUpdated, debugBuffer
      ensures cpu == s.cpu && cycles == s.cycles && DebugState(debugBuffer[..], debugSize, msgUpdated) == s.debug
    {
      cpu, cycles := s.cpu, s.cycles;
      CopyInto(debugBuffer, s.debug.buffer);
      debugSize, msgUpdated := s.debug.size, s.debug.msgUpdated;
    }

    /** The interrupt and DMA registers of a memory record. */
    method LoadInterruptsAndDma(m: Mem)
      modifies this`intFlags, this`ieFlags, this`dmaActive, this`dmaCurrentByte, this`dmaValue, this`dmaStartDelay
      ensures intFlags == m.intFlags && ieFlags == m.ieFlags && DmaRegisters() == m.dma
    {
      intFlags, ieFlags := m.intFlags, m.ieFlags;
      dmaActive, dmaCurrentByte, dmaValue, dmaStartDelay := m.dma.active, m.dma.currentByte, m.dma.value, m.dma.startDelay;
    }

    /** The timer registers of a memory record. */
    method LoadTimer(t: Timer.TimerState)
      modifies this`div, this`tima, this`tma, this`tac, this`counter, this`divCounter
      ensures TimerRegisters() == t
    {
      div, tima, tma, tac, counter, divCounter := t.div, t.tima, t.tma, t.tac, t.counter, t.divCounter;
    }

    /** The bank selectors and the ROM image of a memory record. */
    method LoadBanks(m: Mem)
      modifies this`wramBank, this`vramBank, this`rom, this`extRamBank
      ensures wramBank == m.ram.wramBank && vramBank == m.ram.vramBank && rom == m.cart.rom && extRamBank == m.cart.extRamBank
    {
      wramBank, vramBank := m.ram.wramBank, m.ram.vramBank;
      rom, extRamBank := m.cart.rom, m.cart.extRamBank;
    }

    /** The array part of LoadMemory. */
    method LoadArrays(m: Mem)
      requires Valid()
      modifies wram0, wramBanks, vram, hram, oam, serialData, extRam
      ensures wram0[..] == m.ram.wram0 && wramBanks[..] == m.ram.wramBanks && vram[..] == m.ram.vram
      ensures hram[..] == m.ram.hram && oam[..] == m.oam && serialData[..] == m.serial && extRam[..] == m.cart.extRam
    {
      CopyInto(wram0, m.ram.wram0);
      CopyInto(wramBanks, m.ram.wramBanks);
      CopyInto(vram, m.ram.vram);
      CopyInto(hram, m.ram.hram);
      CopyInto(oam, m.oam);
      CopyInto(serialData, m.serial);
      CopyInto(extRam, m.cart.extRam);
    }

    /** Stores a memory record into the object. */
    method LoadMemory(m: Mem)
      requires Valid()
      modifies this`intFlags, this`ieFlags, this`dmaActive, this`dmaCurrentByte, this`dmaValue, this`dmaStartDelay
      modifies this`div, this`tima, this`tma, this`tac, this`counter, this`divCounter
      modifies this`wramBank, this`vramBank, this`rom, this`extRamBank
      modifies wram0, wramBanks, vram, hram, oam, serialData, extRam
      ensures Valid() && MemorySnapshot() == m
    {
      LoadInterruptsAndDma(m);
      LoadTimer(m.timer);
      LoadBanks(m);
      LoadArrays(m);
      assert Ram.RamState(wram0[..], wramBanks[..], wramBank, vram[..], vramBank, hram[..]) == m.ram;
      assert Cart.CartState(rom, extRam[..], extRamBank) == m.cart;
    }
  }

  /** A method's outcome as the value model's: both succeed, or both fail with the same fault. */
  predicate SameOutcome<T>(r: Result<()>, spec: Result<T>)
  {
    if spec.Ok? then r.Ok? else r == Fail(spec.fault)
  }

  /** Copies a sequence into an array of the same length. */
  method CopyInto(a: array<u8>, src: seq<u8>)
    requires a.Length == |src|
    modifies a
    ensures a[..] == src
  {
    var i := 0;
    while i < a.Length
      invariant i <= a.Length
      invariant a[..i] == src[..i]
    {
      a[i] := src[i];
      i := i + 1;
    }
  }
}
