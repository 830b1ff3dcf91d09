/**
 * The two members of class EMU the core uses: Cycle, which advances the
 * clock, the timer and DMA, and DebugUpdate, the serial byte sink test ROMs
 * print through (with DebugPrint, which hands a finished message to the
 * console).
 */
module Emu {
  import opened Bits
  import opened Types
  import opened CpuState
  import opened EmuState
  import Dma
  import Timer
  import Bus

  /**
   * One pass of the inner loop of Cycle, apart from `cycles++`:
   * `timer->Tick(1)`, whose overflow requests the Timer interrupt. PPU::Tick
   * is not part of this model.
   */
  function ClockTick(m: Mem): Mem
  {
    var t := Timer.Tick(m.timer, 1);
    m.(timer := t.timer, intFlags := if t.interrupt then RequestInterrupt(m.intFlags, IntType.Timer) else m.intFlags)
  }

  /** The clock ticks of n machine cycles: four each. */
  function Ticks(n: nat): nat
  {
    4 * n
  }

  /**
   * One pass of the outer loop: four clock ticks, then one DMA tick. The
   * tick is the corrected Bus.DmaTick, not the faulting Bus.DmaTickAsWritten.
   */
  function MachineCycle(m: Mem): Result<Mem>
  {
    Bus.DmaTick(ClockTick(ClockTick(ClockTick(ClockTick(m)))))
  }

  /** n machine cycles in a row, stopping at the first fault. */
  function Cycles(m: Mem, n: nat): Result<Mem>
    decreases n, 1
  {
    if n == 0 then Ok(m) else CycleThenRest(m, n)
  }

  /** One machine cycle, then the other n - 1. */
  function CycleThenRest(m: Mem, n: nat): Result<Mem>
    requires n > 0
    decreases n, 0
  {
    var m1 :- MachineCycle(m);
    Cycles(m1, n - 1)
  }

  /**
   * EMU::Cycle(amount): an amount of 0 returns at once; otherwise `amount`
   * machine cycles, and `cycles` incremented once per clock tick, that is
   * 4 * amount times in 32 bits. The CPU's own state is not touched.
   */
  function Cycle(s: Machine, amount: u8): Result<Machine>
  {
    if amount == 0 then Ok(s)
    else
      var m :- Cycles(s.mem, amount);
      Ok(s.(mem := m, cycles := Clock(s.cycles, amount)))
  }

  /** The newline that ends a line of the test ROM's output. */
  const Newline: u8 := 0x0A

  /** The serial control value a test ROM writes to send the byte in 0xFF01. */
  const TransferRequest: u8 := 0x81

  /**
   * DebugUpdate: when 0xFF02 reads 0x81 the byte at 0xFF01 is appended to
   * the buffer (cleared first if a new message starts over old text), 0xFF02
   * is reset to 0, and a newline that closes a blank line or a message that
   * began with a newline completes the message. The source writes the
   * buffer without a bound check; a write at index 1024 or beyond is
   * reported as a fault.
   */
  function DebugUpdate(s: Machine): Result<Machine>
  {
    var control :- Bus.ReadByte(s.mem, 0xFF02);
    if control != TransferRequest then Ok(s) else DebugReceive(StartMessage(s))
  }

  /** A byte that starts a message over old text clears the buffer first. */
  function StartMessage(s: Machine): Machine
  {
    var d := s.debug;
    if d.size == 0 && d.buffer[0] != 0 then s.(debug := d.(buffer := Zeros(DebugBufferSize))) else s
  }

  /** The byte in 0xFF01 is stored at the current size and 0xFF02 is reset. */
  function DebugReceive(s: Machine): Result<Machine>
  {
    var d := s.debug;
    var newChar :- Bus.ReadByte(s.mem, 0xFF01);
    if d.size >= DebugBufferSize as u32 then Fail(DebugBufferOverflow)
    else
      var buffer' := d.buffer[d.size := newChar];
      var size' := d.size + 1;
      var m1 :- Bus.WriteByte(s.mem, 0xFF02, 0);
      var done := newChar == Newline && size' >= 2 && (buffer'[size' - 2] == Newline || buffer'[0] == Newline);
      Ok(s.(mem := m1, debug := if done then DebugState(buffer', 0, true) else DebugState(buffer', size', d.msgUpdated)))
  }

  /** DebugPrint: a finished message is handed to the console (not modelled) and the flag cleared. */
  function DebugPrint(s: Machine): (r: Machine)
    ensures !r.debug.msgUpdated
    ensures r == s.(debug := s.debug.(msgUpdated := false))
  {
    if s.debug.msgUpdated then s.(debug := s.debug.(msgUpdated := false)) else s
  }

  // ---------------------------------------------------------------------
  // Properties of Cycle
  // ---------------------------------------------------------------------

  lemma Wrap32Add(x: int, k: int)
    ensures Wrap32(Wrap32(x) + k) == Wrap32(x + k)
  {
    var q := x / 0x1_0000_0000;
    assert x == q * 0x1_0000_0000 + Wrap32(x);
    assert x + k == q * 0x1_0000_0000 + (Wrap32(x) + k);
  }

  /** The cycle counter n machine cycles later: `cycles++` four times a cycle, in 32 bits. */
  function Clock(c: u32, n: nat): u32
    decreases n
  {
    if n == 0 then c else Wrap32(Clock(c, n - 1) + 4)
  }

  /** The counter moves on by the n cycles' ticks, modulo 2^32. */
  lemma {:induction false} ClockIsWrap(c: u32, n: nat)
    ensures Clock(c, n) == Wrap32(c + Ticks(n))
    decreases n
  {
    if n > 0 {
      ClockIsWrap(c, n - 1);
      Wrap32Add(c + Ticks(n - 1), 4);
    }
  }

  /** a cycles and then b more move the counter as a + b cycles do. */
  lemma {:induction false} ClockCompose(c: u32, a: nat, b: nat)
    ensures Clock(Clock(c, a), b) == Clock(c, a + b)
    decreases b
  {
    if b > 0 {
      ClockCompose(c, a, b - 1);
    }
  }

  /** The timer interrupt as Cycle requests it: the bit is set if any tick overflowed. */
  function RequestIf(flags: u8, fired: bool): u8
  {
    if fired then RequestInterrupt(flags, IntType.Timer) else flags
  }

  lemma RequestIfTwice(flags: u8, a: bool, b: bool)
    ensures RequestIf(RequestIf(flags, a), b) == RequestIf(flags, a || b)
  {
    if a && b {
      RequestInterruptEffect(flags, IntType.Timer, 0);
    }
  }

  /** Four clock ticks: the timer run four ticks, its interrupt requested if any overflowed, and nothing else. */
  lemma FourTicks(m: Mem)
    ensures var m4 := ClockTick(ClockTick(ClockTick(ClockTick(m))));
      var run := Timer.Run(m.timer, Ticks(1));
      m4.timer == run.timer && m4.intFlags == RequestIf(m.intFlags, run.interrupt)
      && m4 == m.(timer := m4.timer, intFlags := m4.intFlags)
  {
    var m1 := ClockTick(m);
    var m2 := ClockTick(m1);
    var m3 := ClockTick(m2);
    RequestIfTwice(m2.intFlags, Timer.Tick(m2.timer, 1).interrupt, Timer.Tick(m3.timer, 1).interrupt);
    RequestIfTwice(m1.intFlags, Timer.Tick(m1.timer, 1).interrupt,
                   Timer.Tick(m2.timer, 1).interrupt || Timer.Tick(m3.timer, 1).interrupt);
    RequestIfTwice(m.intFlags, Timer.Tick(m.timer, 1).interrupt,
                   Timer.Tick(m1.timer, 1).interrupt || Timer.Tick(m2.timer, 1).interrupt || Timer.Tick(m3.timer, 1).interrupt);
  }

  /** A DMA tick moves the DMA registers by Dma.Next and changes nothing but them and OAM. */
  lemma DmaTickEffect(m: Mem)
    requires Bus.DmaTick(m).Ok?
    ensures var r := Bus.DmaTick(m).value; r.dma == Dma.Next(m.dma) && r == m.(oam := r.oam, dma := r.dma)
  {
  }

  /** The parts of memory a cycle never touches. */
  predicate ClockFrame(m: Mem, r: Mem)
  {
    r.ieFlags == m.ieFlags && r.ram == m.ram && r.cart == m.cart && r.serial == m.serial
  }

  /**
   * What n machine cycles do: the timer runs 4n ticks and its interrupt is
   * requested if any of them overflowed, the DMA registers take n ticks,
   * and only OAM changes besides.
   */
  predicate CyclesSpec(m: Mem, r: Mem, n: nat)
  {
    var run := Timer.Run(m.timer, Ticks(n));
    r.timer == run.timer && r.intFlags == RequestIf(m.intFlags, run.interrupt)
    && r.dma == Dma.After(m.dma, n) && ClockFrame(m, r)
  }

  /** One machine cycle meets the specification of one cycle. */
  lemma MachineCycleEffect(m: Mem)
    requires MachineCycle(m).Ok?
    ensures CyclesSpec(m, MachineCycle(m).value, 1)
  {
    FourTicks(m);
    DmaTickEffect(ClockTick(ClockTick(ClockTick(ClockTick(m)))));
  }

  /** One cycle followed by n - 1 cycles is n cycles. */
  lemma SpecCompose(m: Mem, m1: Mem, r: Mem, n: nat)
    requires n > 0 && CyclesSpec(m, m1, 1) && CyclesSpec(m1, r, n - 1)
    ensures CyclesSpec(m, r, n)
  {
    TimerCompose(m.timer, m.intFlags, m1.timer, m1.intFlags, n);
    assert Dma.After(m.dma, 1) == Dma.Next(m.dma);
  }

  /** The timer and IF after one machine cycle and then n - 1 more are those after n. */
  lemma TimerCompose(t0: Timer.TimerState, f0: u8, t1: Timer.TimerState, f1: u8, n: nat)
    requires n > 0
    requires t1 == Timer.Run(t0, Ticks(1)).timer && f1 == RequestIf(f0, Timer.Run(t0, Ticks(1)).interrupt)
    ensures var rest := Timer.Run(t1, Ticks(n - 1)); var all := Timer.Run(t0, Ticks(n));
      rest.timer == all.timer && RequestIf(f1, rest.interrupt) == RequestIf(f0, all.interrupt)
  {
    Timer.RunSplit(t0, Ticks(1), Ticks(n - 1));
    RequestIfTwice(f0, Timer.Run(t0, Ticks(1)).interrupt, Timer.Run(t1, Ticks(n - 1)).interrupt);
  }

  /** EMU::Cycle(n), when no DMA read stops it, does what CyclesSpec says. */
  lemma {:induction false} CyclesEffect(m: Mem, n: nat)
    requires Cycles(m, n).Ok?
    ensures CyclesSpec(m, Cycles(m, n).value, n)
    decreases n
  {
    if n > 0 {
      assert Cycles(m, n) == CycleThenRest(m, n);
      var m1 := MachineCycle(m).value;
      MachineCycleEffect(m);
      CyclesEffect(m1, n - 1);
      SpecCompose(m, m1, Cycles(m, n).value, n);
    }
  }

  /** n + 1 machine cycles are n cycles and then one more; a fault among the first n stays the outcome. */
  lemma {:induction false} CyclesStep(m: Mem, n: nat)
    ensures Cycles(m, n + 1) == if Cycles(m, n).Ok? then MachineCycle(Cycles(m, n).value) else Cycles(m, n)
    decreases n
  {
    assert Cycles(m, n + 1) == CycleThenRest(m, n + 1);
    var first := MachineCycle(m);
    if n > 0 && first.Ok? {
      assert Cycles(m, n) == CycleThenRest(m, n);
      CyclesStep(first.value, n - 1);
    }
  }

  /** Once a machine cycle has faulted, further cycles keep that fault. */
  lemma {:induction false} CyclesFaultStays(m: Mem, n: nat, k: nat)
    requires Cycles(m, n).Fail?
    ensures Cycles(m, n + k) == Cycles(m, n)
    decreases k
  {
    if k > 0 {
      var j := n + k - 1;
      CyclesFaultStays(m, n, k - 1);
      CyclesStep(m, j);
      assert j + 1 == n + k;
    }
  }

  /** Cycle one machine cycle further: the next machine cycle on the result so far, or the fault so far. */
  lemma CycleStep(s: Machine, i: u8)
    requires i < 255
    ensures Cycle(s, i + 1) ==
      var c := Cycle(s, i);
      if c.Fail? then c
      else if MachineCycle(c.value.mem).Fail? then Fail(MachineCycle(c.value.mem).fault)
      else Ok(c.value.(mem := MachineCycle(c.value.mem).value, cycles := Clock(c.value.cycles, 1)))
  {
    CyclesStep(s.mem, i as nat);
    ClockCompose(s.cycles, i as nat, 1);
  }

  /** Once Cycle faults, more machine cycles keep the same fault. */
  lemma CycleFaultStays(s: Machine, i: u8, amount: u8)
    requires i <= amount && Cycle(s, i).Fail?
    ensures Cycle(s, amount) == Cycle(s, i)
  {
    CyclesFaultStays(s.mem, i as nat, amount as nat - i as nat);
  }

  /** The clock ticks of a machine cycle, one at a time: the first n of them. */
  function ClockTicks(m: Mem, n: nat): Mem
    decreases n
  {
    if n == 0 then m else ClockTick(ClockTicks(m, n - 1))
  }

  /** The four ticks of a machine cycle, counted one at a time, then the DMA tick, make one machine cycle. */
  lemma FourClockTicks(m: Mem)
    ensures MachineCycle(m) == Bus.DmaTick(ClockTicks(m, 4))
  {
    assert ClockTicks(m, 2) == ClockTick(ClockTick(m));
    assert ClockTicks(m, 4) == ClockTick(ClockTick(ClockTicks(m, 2)));
  }

  /** Without a DMA transfer a machine cycle cannot fail, and starts none. */
  lemma IdleMachineCycle(m: Mem)
    requires !m.dma.active
    ensures MachineCycle(m).Ok? && !MachineCycle(m).value.dma.active
  {
    var m4 := ClockTick(ClockTick(ClockTick(ClockTick(m))));
    assert m4.dma == m.dma;
  }

  /** Without DMA, n machine cycles do not fault and start no transfer. */
  lemma {:induction false} IdleCycles(m: Mem, n: nat)
    requires !m.dma.active
    ensures Cycles(m, n).Ok? && !Cycles(m, n).value.dma.active
    decreases n
  {
    if n > 0 {
      assert Cycles(m, n) == CycleThenRest(m, n);
      IdleMachineCycle(m);
      IdleCycles(MachineCycle(m).value, n - 1);
    }
  }

  /** Without DMA and with the timer disabled, n machine cycles change nothing but DIV: IF, DMA and OAM stay. */
  lemma QuietCycles(m: Mem, n: nat)
    requires !m.dma.active && !Timer.Enabled(m.timer)
    ensures Cycles(m, n).Ok?
    ensures var r := Cycles(m, n).value;
      r.intFlags == m.intFlags && r.dma == m.dma && r == m.(timer := r.timer, oam := r.oam)
  {
    IdleCycles(m, n);
    CyclesEffect(m, n);
    TimerStaysDisabled(m.timer, Ticks(n));
    Dma.IdleStays(m.dma, n);
  }

  /** Without DMA, n machine cycles do not fault. */
  lemma QuietCyclesOk(m: Mem, n: nat)
    requires !m.dma.active
    ensures Cycles(m, n).Ok?
  {
    IdleCycles(m, n);
  }

  /**
   * Cycle(0) changes nothing. Otherwise Cycle is `amount` machine cycles:
   * the memory as CyclesSpec says, `cycles` up by 4 * amount (in 32 bits),
   * and neither the CPU nor the debug buffer changed.
   */
  lemma CycleEffect(s: Machine, amount: u8)
    ensures Cycle(s, 0) == Ok(s)
    ensures amount > 0 ==> (Cycle(s, amount).Ok? <==> Cycles(s.mem, amount).Ok?)
    ensures Cycle(s, amount).Ok? ==>
      var r := Cycle(s, amount).value;
      CyclesSpec(s.mem, r.mem, amount)
      && r.cycles == Clock(s.cycles, amount)
      && r == s.(mem := r.mem, cycles := r.cycles)
  {
    if Cycle(s, amount).Ok? && amount > 0 {
      CyclesEffect(s.mem, amount);
    }
    if amount == 0 {
      assert RequestIf(s.mem.intFlags, false) == s.mem.intFlags;
    }
  }

  /** A disabled timer stays disabled and requests nothing. */
  lemma {:induction false} TimerStaysDisabled(t: Timer.TimerState, n: nat)
    requires !Timer.Enabled(t)
    ensures !Timer.Run(t, n).interrupt && !Timer.Enabled(Timer.Run(t, n).timer)
    decreases n
  {
    if n > 0 {
      Timer.DisabledTimerHolds(t, 1);
      TimerStaysDisabled(Timer.Tick(t, 1).timer, n - 1);
    }
  }

  // ---------------------------------------------------------------------
  // Properties of DebugUpdate
  // ---------------------------------------------------------------------

  /** The serial registers read through the bus as the IO bytes. */
  lemma SerialReads(s: Machine)
    ensures Bus.ReadByte(s.mem, 0xFF02) == Ok(s.mem.serial[1]) && Bus.ReadByte(s.mem, 0xFF01) == Ok(s.mem.serial[0])
    ensures Bus.WriteByte(s.mem, 0xFF02, 0) == Ok(s.mem.(serial := s.mem.serial[1 := 0]))
  {
  }

  /** Unless 0xFF02 holds 0x81, DebugUpdate changes nothing. */
  lemma DebugIdle(s: Machine)
    requires s.mem.serial[1] != TransferRequest
    ensures DebugUpdate(s) == Ok(s)
  {
    SerialReads(s);
  }

  /**
   * With 0xFF02 at 0x81 and room in the buffer, the byte in 0xFF01 lands at
   * the current size, 0xFF02 becomes 0, and the size grows by one unless the
   * newline completes the message, which resets the size and raises msgUpdated.
   */
  lemma DebugAppends(s: Machine)
    requires s.mem.serial[1] == TransferRequest && s.debug.size < DebugBufferSize
    ensures DebugUpdate(s).Ok?
    ensures var r := DebugUpdate(s).value; var i := s.debug.size; var c := s.mem.serial[0];
      r == s.(mem := s.mem.(serial := [c, 0]), debug := r.debug)
      && r.debug.buffer[i] == c
      && (forall k :: 0 <= k < DebugBufferSize && k != i ==>
            r.debug.buffer[k] == if i == 0 && s.debug.buffer[0] != 0 then 0 else s.debug.buffer[k])
      && var complete := c == Newline && i >= 1 && (r.debug.buffer[i - 1] == Newline || r.debug.buffer[0] == Newline);
      (complete ==> r.debug.size == 0 && r.debug.msgUpdated)
      && (!complete ==> r.debug.size == i + 1 && r.debug.msgUpdated == s.debug.msgUpdated)
  {
    SerialReads(s);
    assert s.mem.serial == [s.mem.serial[0], s.mem.serial[1]];
  }

  /** A full buffer with a pending byte is the source's out-of-bounds write. */
  lemma DebugOverflow(s: Machine)
    requires s.mem.serial[1] == TransferRequest && s.debug.size >= DebugBufferSize
    ensures DebugUpdate(s) == Fail(DebugBufferOverflow)
  {
    SerialReads(s);
  }

}
