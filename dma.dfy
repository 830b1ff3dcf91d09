/**
 * The OAM DMA registers of class MEM_BUS: whether a transfer is active, the
 * next OAM offset to copy, the source page and the start delay. This module
 * holds the register-level rules; the copy itself reads the bus and is in
 * module Bus.
 */
module Dma {
  import opened Bits

  /** TOTAL_OAM_SIZE: the number of bytes a transfer copies. */
  const TransferLength: nat := 0xA0

  /** The ticks DMA_Start makes a transfer wait before the first copy. */
  const StartDelay: u8 := 2

  datatype DmaState = DmaState(active: bool, currentByte: u8, value: u8, startDelay: u8)
  {
    /** An active transfer has not yet copied all 160 bytes. */
    predicate Valid() { active ==> currentByte < TransferLength }
  }

  /** The default member initialisers: no transfer. */
  const Initial: DmaState := DmaState(false, 0, 0, 0)

  /** DMA_Start(start): a transfer from page `start`, after two ticks of delay. */
  function Start(d: DmaState, page: u8): (r: DmaState)
    ensures r.Valid() && r.active && r.startDelay == 2 && r.currentByte == 0 && r.value == page
  {
    DmaState(true, 0, page, StartDelay)
  }

  function TransferActive(d: DmaState): bool { d.active }

  /** `dmaValue * 0x100 + dmaCurrentByte`: the bus address the next copy reads. */
  function SourceAddress(d: DmaState): (r: u16)
    ensures r / 0x100 == d.value && r % 0x100 == d.currentByte
  {
    d.value * 0x100 + d.currentByte
  }

  /** What one DMA_Tick does to the registers. */
  datatype TickKind = Idle | Wait | Copy

  function Kind(d: DmaState): (k: TickKind)
    ensures k == Copy ==> d.active && d.startDelay == 0
  {
    if !d.active then Idle else if d.startDelay > 0 then Wait else Copy
  }

  /** The registers after one DMA_Tick: a wait lowers the delay, a copy advances the offset. */
  function Next(d: DmaState): (r: DmaState)
    requires d.Valid()
    ensures r.Valid()
  {
    match Kind(d)
    case Idle => d
    case Wait => d.(startDelay := d.startDelay - 1)
    case Copy => d.(currentByte := d.currentByte + 1, active := d.currentByte + 1 < TransferLength)
  }

  /** The registers after n ticks. */
  function After(d: DmaState, n: nat): (r: DmaState)
    requires d.Valid()
    ensures r.Valid()
    decreases n
  {
    if n == 0 then d else After(Next(d), n - 1)
  }

  // ---------------------------------------------------------------------
  // Properties
  // ---------------------------------------------------------------------

  /** An inactive transfer stays as it is. */
  lemma IdleStays(d: DmaState, n: nat)
    requires d.Valid() && !d.active
    ensures After(d, n) == d
    decreases n
  {
    if n > 0 {
      IdleStays(d, n - 1);
    }
  }

  /** A copy tick copies the offset it finds and moves to the next; the last offset ends the transfer. */
  lemma CopyAdvances(d: DmaState)
    requires d.Valid() && Kind(d) == Copy
    ensures Next(d).currentByte == d.currentByte + 1
    ensures Next(d).active <==> d.currentByte < TransferLength - 1
    ensures Next(d).value == d.value && Next(d).startDelay == 0
  {
  }

  /** During the copy phase, k further ticks leave the offset k higher and the transfer still active. */
  lemma {:induction false} CopyPhase(d: DmaState, k: nat)
    requires d.Valid() && d.active && d.startDelay == 0 && d.currentByte + k < TransferLength
    ensures After(d, k) == d.(currentByte := d.currentByte + k)
    decreases k
  {
    if k > 0 {
      var d' := Next(d);
      assert d' == d.(currentByte := d.currentByte + 1);
      CopyPhase(d', k - 1);
      AfterSplit(d, 1, k - 1);
    }
  }

  /** Running m + n ticks is running m ticks and then n more. */
  lemma {:induction false} AfterSplit(d: DmaState, m: nat, n: nat)
    requires d.Valid()
    ensures After(d, m + n) == After(After(d, m), n)
    decreases m
  {
    if m > 0 {
      AfterSplit(Next(d), m - 1, n);
      assert m + n - 1 == (m - 1) + n;
    }
  }

  /**
   * The transfer timing: after DMA_Start the first two ticks only wait, tick
   * 2 + k (k < 160) copies offset k, and the transfer is active after t
   * ticks exactly when t < 162.
   */
  lemma Timing(d: DmaState, page: u8, t: nat)
    ensures var s := Start(d, page);
      (t < 2 ==> Kind(After(s, t)) == Wait)
      && (2 <= t < 2 + TransferLength ==>
            Kind(After(s, t)) == Copy && After(s, t).currentByte == t - 2 && After(s, t).value == page)
      && (After(s, t).active <==> t < 2 + TransferLength)
  {
    var s := Start(d, page);
    var ready := s.(startDelay := 0);
    assert After(s, 2) == ready;
    if t >= 2 {
      AfterSplit(s, 2, t - 2);
      if t - 2 < TransferLength {
        CopyPhase(ready, t - 2);
      } else {
        var last := ready.(currentByte := TransferLength - 1);
        CopyPhase(ready, TransferLength - 1);
        AfterSplit(ready, TransferLength - 1, t - 2 - (TransferLength - 1));
        var done := Next(last);
        assert !done.active;
        AfterSplit(last, 1, t - 2 - TransferLength);
        IdleStays(done, t - 2 - TransferLength);
      }
    } else if t == 1 {
      assert After(s, 1) == s.(startDelay := 1);
    }
  }
}
