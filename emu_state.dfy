/**
 * The whole emulated machine as one record. It is split in two along the
 * memory bus: the CPU's own state, and everything the bus reaches (the
 * cartridge, RAM, object memory, the IO registers with the interrupt flag
 * and enable bytes, the timer and the DMA registers of MEM_BUS). Then come
 * the cycle counter and debug buffer of class EMU.
 */
module EmuState {
  import opened Bits
  import opened Types
  import opened CpuState
  import opened Dma
  import Timer
  import Ram
  import Ppu
  import Cart

  /** The size of EMU::DebugBuffer. */
  const DebugBufferSize: nat := 1024

  /**
   * What a bus access can read or change. IF and IE are fields of class CPU
   * in the source; they sit here because the bus reaches them as 0xFF0F and
   * 0xFFFF.
   */
  datatype Memory = Memory(
    intFlags: u8,            // CPU::IF_Flags
    ieFlags: u8,             // CPU::IE_Flags
    dma: DmaState,
    timer: Timer.TimerState,
    ram: Ram.Ram,
    oam: Ppu.Oam,
    serial: seq<u8>,         // IO::serialData
    cart: Cart.Cart)
  {
    /** Two serial bytes and a DMA transfer within the OAM size. */
    predicate Valid() { |serial| == 2 && dma.Valid() }
  }

  type Mem = m: Memory | m.Valid()
    witness Memory(0, 0, Dma.Initial, Timer.Initial, Ram.Initial, Ppu.InitialOam, [0, 0],
                   Cart.Blank)

  datatype DebugState = DebugState(buffer: seq<u8>, size: u32, msgUpdated: bool)

  datatype State = State(
    cpu: CpuState,
    mem: Memory,
    cycles: u32,            // EMU::cycles
    debug: DebugState)
  {
    /** Valid memory and a 1024-byte debug buffer. */
    predicate Valid() { mem.Valid() && |debug.buffer| == DebugBufferSize }
  }

  type Machine = s: State | s.Valid()
    witness State(InitialCpu,
                  Memory(0, 0, Dma.Initial, Timer.Initial, Ram.Initial, Ppu.InitialOam, [0, 0],
                         Cart.Blank),
                  0, DebugState(Zeros(1024), 0, false))

  /** The memory right after construction, with the loaded cartridge. */
  function InitialMemory(cart: Cart.Cart): (r: Mem)
    ensures r.intFlags == 0 && r.ieFlags == 0 && r.cart == cart && !r.dma.active
  {
    Memory(0, 0, Dma.Initial, Timer.Initial, Ram.Initial, Ppu.InitialOam, [0, 0], cart)
  }

  /** The machine right after construction, with the loaded cartridge. */
  function Initial(cart: Cart.Cart): (r: Machine)
    ensures r.cpu == InitialCpu && r.mem == InitialMemory(cart) && r.cycles == 0 && r.debug.size == 0
  {
    State(InitialCpu, InitialMemory(cart), 0, DebugState(Zeros(DebugBufferSize), 0, false))
  }

  /** The machine with its register file replaced. */
  function WithRegs(s: Machine, regs: Registers.RegisterFile): (r: Machine)
    ensures r.cpu.regs == regs && r == s.(cpu := s.cpu.(regs := regs))
  {
    s.(cpu := s.cpu.(regs := regs))
  }

  /** The machine with its memory replaced. */
  function WithMem(s: Machine, m: Mem): (r: Machine)
    ensures r.mem == m && r == s.(mem := m)
  {
    s.(mem := m)
  }
}
