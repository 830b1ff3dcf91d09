/**
 * The timer (class Timer): the divider DIV, the counter TIMA with its
 * reload value TMA, and the control register TAC. `counter` is the number
 * of clock ticks left before TIMA next increments; `divCounter` counts
 * ticks towards the next DIV increment.
 */
module Timer {
  import opened Bits
  import opened Types

  datatype TimerState = TimerState(div: u16, tima: u8, tma: u8, tac: u8, counter: i32, divCounter: u16)

  /** The constructor: DIV starts at 0xABCC, the counter at 1024, everything else at 0. */
  const Initial: TimerState := TimerState(0xABCC, 0, 0, 0, 1024, 0)

  /** The divider increments once `divCounter` reaches this many ticks. */
  const DivPeriod: nat := 255

  predicate IsTimerAddr(a: u16) { 0xFF04 <= a <= 0xFF07 }

  /** `tac & 0x3` */
  function GetClockFrequency(t: TimerState): (r: u8)
    ensures r < 4
  {
    t.tac % 4
  }

  /** The tick count UpdateClockFrequency loads for each of the four frequency selections. */
  function Period(freq: nat): (r: i32)
    requires freq < 4
    ensures r > 0
  {
    match freq
    case 0 => 1024  // 4096 Hz
    case 1 => 16    // 262144 Hz
    case 2 => 64    // 65536 Hz
    case 3 => 256   // 16384 Hz
  }

  function UpdateClockFrequency(t: TimerState): (r: TimerState)
    ensures r.counter in {1024, 16, 64, 256}
    ensures r.counter == Period(GetClockFrequency(t))
    ensures r == t.(counter := r.counter)
  {
    t.(counter := Period(GetClockFrequency(t)))
  }

  /** `tac & (1 << 2)`: the timer-enable bit. */
  predicate Enabled(t: TimerState) { Bit(t.tac, 2) == 1 }

  /** The new timer state, and whether the tick requested the timer interrupt. */
  datatype TickResult = TickResult(timer: TimerState, interrupt: bool)

  /** The divider part of Tick. */
  function TickDivider(t: TimerState, amount: u32): TimerState
  {
    var dc := Wrap16(t.divCounter + amount);
    if dc >= DivPeriod then t.(divCounter := 0, div := Wrap16(t.div + 1)) else t.(divCounter := dc)
  }

  /** The TIMA part of Tick, on the state after the divider part. */
  function TickCounter(t: TimerState, amount: u32): TickResult
  {
    if !Enabled(t) then TickResult(t, false)
    else
      var c := WrapI32(t.counter - amount);
      if c > 0 then TickResult(t.(counter := c), false)
      else
        var reloaded := UpdateClockFrequency(t.(counter := c));
        if reloaded.tima == 0xFF then TickResult(reloaded.(tima := reloaded.tma), true)
        else TickResult(reloaded.(tima := reloaded.tima + 1), false)
  }

  function Tick(t: TimerState, amount: u32): TickResult
  {
    TickCounter(TickDivider(t, amount), amount)
  }

  function ReadByte(t: TimerState, a: u16): (r: Result<u8>)
    ensures r.Ok? <==> IsTimerAddr(a)
  {
    match a
    case 0xFF04 => Ok(t.div / 0x100)
    case 0xFF05 => Ok(t.tima)
    case 0xFF06 => Ok(t.tma)
    case 0xFF07 => Ok(t.tac)
    case _ => Fail(BadTimerAddress(a))
  }

  function WriteByte(t: TimerState, a: u16, v: u8): (r: Result<TimerState>)
    ensures r.Ok? <==> IsTimerAddr(a)
  {
    match a
    case 0xFF04 => Ok(t.(div := 0))
    case 0xFF05 => Ok(t.(tima := v))
    case 0xFF06 => Ok(t.(tma := v))
    case 0xFF07 =>
      var current := GetClockFrequency(t);
      var t' := t.(tac := v);
      if current != GetClockFrequency(t') then Ok(UpdateClockFrequency(t')) else Ok(t')
    case _ => Fail(BadTimerAddress(a))
  }

  /** `n` calls of Tick(1), as EMU::Cycle makes them; the interrupt flag is set if any of them requested it. */
  function Run(t: TimerState, n: nat): TickResult
    decreases n
  {
    if n == 0 then TickResult(t, false)
    else
      var first := Tick(t, 1);
      var rest := Run(first.timer, n - 1);
      TickResult(rest.timer, first.interrupt || rest.interrupt)
  }

  // ---------------------------------------------------------------------
  // Properties
  // ---------------------------------------------------------------------

  /** Every tick adds to `divCounter`; once it reaches 255 it restarts at 0 and DIV increments. */
  lemma DividerRule(t: TimerState, amount: u32)
    ensures var t' := Tick(t, amount).timer;
      if (t.divCounter + amount) % 0x1_0000 >= 255 then t'.divCounter == 0 && t'.div == (t.div + 1) % 0x1_0000
      else t'.divCounter == (t.divCounter + amount) % 0x1_0000 && t'.div == t.div
    ensures ReadByte(Tick(t, amount).timer, 0xFF04) == Ok(Tick(t, amount).timer.div / 0x100)
  {
  }

  /** With TAC bit 2 clear a tick changes neither the counter nor TIMA, and requests no interrupt. */
  lemma DisabledTimerHolds(t: TimerState, amount: u32)
    requires Bit(t.tac, 2) == 0
    ensures var r := Tick(t, amount);
      !r.interrupt && r.timer.counter == t.counter && r.timer.tima == t.tima
      && r.timer.tma == t.tma && r.timer.tac == t.tac
  {
  }

  /**
   * With TAC bit 2 set the counter drops by the tick amount; when it reaches
   * 0 or less it reloads from {1024, 16, 64, 256}[TAC & 3] and TIMA
   * increments, except that from 0xFF it becomes TMA and the timer interrupt
   * is requested.
   */
  lemma EnabledTimerCounts(t: TimerState, amount: u32)
    requires Bit(t.tac, 2) == 1
    ensures var r := Tick(t, amount); var c := WrapI32(t.counter - amount);
      r.timer.tac == t.tac && r.timer.tma == t.tma
      && (c > 0 ==> r.timer.counter == c && r.timer.tima == t.tima && !r.interrupt)
      && (c <= 0 ==>
            r.timer.counter == Period(t.tac % 4)
            && r.timer.counter in {1024, 16, 64, 256}
            && r.interrupt == (t.tima == 0xFF)
            && r.timer.tima == if t.tima == 0xFF then t.tma else t.tima + 1)
  {
  }

  /** Only an expiring counter with TIMA at 0xFF requests the interrupt, and TIMA then holds TMA. */
  lemma InterruptOnOverflow(t: TimerState, amount: u32)
    ensures Tick(t, amount).interrupt <==>
      Enabled(t) && WrapI32(t.counter - amount) <= 0 && t.tima == 0xFF
    ensures Tick(t, amount).interrupt ==> Tick(t, amount).timer.tima == t.tma
  {
  }

  /** DIV reads back as its high byte, TIMA, TMA and TAC as written; writing 0xFF04 clears DIV. */
  lemma WriteThenRead(t: TimerState, a: u16, v: u8)
    requires IsTimerAddr(a)
    ensures WriteByte(t, a, v).Ok?
    ensures ReadByte(WriteByte(t, a, v).value, a) == Ok(if a == 0xFF04 then 0 else v)
  {
  }

  /** Writing TAC reloads the counter exactly when the frequency selection `TAC & 3` changes. */
  lemma TacWriteReload(t: TimerState, v: u8)
    ensures var t' := WriteByte(t, 0xFF07, v).value;
      t'.tac == v
      && (v % 4 != t.tac % 4 ==> t'.counter == Period(v % 4))
      && (v % 4 == t.tac % 4 ==> t'.counter == t.counter)
  {
  }

  /** Addresses outside 0xFF04-0xFF07 reach exit(-7) on both read and write. */
  lemma BadAddressIsFatal(t: TimerState, a: u16, v: u8)
    requires !IsTimerAddr(a)
    ensures ReadByte(t, a) == Fail(BadTimerAddress(a))
    ensures WriteByte(t, a, v) == Fail(BadTimerAddress(a))
  {
  }

  /** Running m + n ticks is running m ticks and then n more. */
  lemma {:induction false} RunSplit(t: TimerState, m: nat, n: nat)
    ensures Run(t, m + n).timer == Run(Run(t, m).timer, n).timer
    ensures Run(t, m + n).interrupt == (Run(t, m).interrupt || Run(Run(t, m).timer, n).interrupt)
    decreases m
  {
    if m > 0 {
      RunSplit(Tick(t, 1).timer, m - 1, n);
      assert m + n - 1 == (m - 1) + n;
    }
  }

  /** A tick of an enabled timer whose counter stays positive only moves the dividers and the counter. */
  lemma QuietTick(t: TimerState)
    requires Enabled(t) && t.counter > 1
    ensures var r := Tick(t, 1);
      !r.interrupt && r.timer.counter == t.counter - 1
      && r.timer.tima == t.tima && r.timer.tma == t.tma && r.timer.tac == t.tac
  {
  }

  /** While the counter stays positive, k ticks lower it by k without touching TIMA. */
  lemma {:induction false} CountsDown(t: TimerState, k: nat)
    requires Enabled(t) && k < t.counter
    ensures var r := Run(t, k);
      !r.interrupt && r.timer.counter == t.counter - k
      && r.timer.tima == t.tima && r.timer.tma == t.tma && r.timer.tac == t.tac
    decreases k
  {
    if k > 0 {
      QuietTick(t);
      CountsDown(Tick(t, 1).timer, k - 1);
    }
  }

  /**
   * TIMA advances once per period: an enabled timer with `counter` ticks
   * left increments TIMA (or reloads it from TMA and requests the interrupt)
   * exactly at the last of those ticks, and restarts the counter from the
   * period of its frequency.
   */
  lemma TimaAdvancesOncePerPeriod(t: TimerState)
    requires Enabled(t) && t.counter >= 1
    ensures var r := Run(t, t.counter);
      r.timer.counter == Period(t.tac % 4)
      && r.timer.tima == (if t.tima == 0xFF then t.tma else t.tima + 1)
      && r.interrupt == (t.tima == 0xFF)
  {
    var before := Run(t, t.counter - 1);
    CountsDown(t, t.counter - 1);
    RunSplit(t, t.counter - 1, 1);
    assert before.timer.counter == 1;
    EnabledTimerCounts(before.timer, 1);
  }

  /** Reading DIV right after construction gives 0xAB, TIMA/TMA/TAC give 0. */
  lemma InitialRegisters()
    ensures ReadByte(Initial, 0xFF04) == Ok(0xAB)
    ensures ReadByte(Initial, 0xFF05) == Ok(0) && ReadByte(Initial, 0xFF06) == Ok(0) && ReadByte(Initial, 0xFF07) == Ok(0)
    ensures !Enabled(Initial) && Initial.counter == Period(GetClockFrequency(Initial))
  {
  }
}
