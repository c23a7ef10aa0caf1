/** OAM DMA (covnes/src/nes/dma.rs): a write to $4014 asks for a copy of a
    256-byte CPU page to the PPU's OAMDATA register, one byte per read cycle
    and one per write cycle, with the CPU halted meanwhile. Whether the CPU
    is in a write cycle, and the byte a read returns, come from the console
    and are parameters. */
module Dma {
  import opened Common

  datatype DmaState =
    | No
    | Req(addrHigh: bv8)
    | DummyRead(addrHigh: bv8)
    | Read(addrHigh: bv8, addrLow: bv8)
    | Write(addrHigh: bv8, addrLow: bv8, value: bv8)

  datatype Dma = Dma(isOdd: bool, state: DmaState)

  const PowerOn := Dma(false, No)

  /** The OAMDATA register of the PPU. */
  const OamData: bv16 := 0x2004

  /** The bus access a DMA cycle makes. */
  datatype DmaAccess = NoAccess | ReadAt(addr: bv16) | WriteAt(addr: bv16, value: bv8)

  function Reset(d: Dma): (r: Dma)
    ensures !r.isOdd && r.state == d.state
  {
    d.(isOdd := false)
  }

  function TriggerOamDma(d: Dma, value: bv8): (r: Dma)
    ensures r == d.(state := Req(value))
  {
    d.(state := Req(value))
  }

  /** The access of the cycle `tick` runs in state `s`. */
  function Access(s: DmaState): (a: DmaAccess)
    ensures a.WriteAt? <==> s.Write?
    ensures a.WriteAt? ==> a == WriteAt(OamData, s.value)
    ensures a.ReadAt? <==> s.DummyRead? || s.Read?
    ensures s.DummyRead? ==> a == ReadAt(Word(s.addrHigh, 0))
    ensures s.Read? ==> a == ReadAt(Word(s.addrHigh, s.addrLow))
  {
    match s
    case DummyRead(high) => ReadAt((high as bv16) << 8)
    case Read(high, low) => ReadAt(((high as bv16) << 8) | (low as bv16))
    case Write(_, _, value) => WriteAt(OamData, value)
    case _ => NoAccess
  }

  /** The result of one DMA cycle: the DMA afterwards and whether the CPU
      runs this cycle. */
  datatype Ticked = Ticked(dma: Dma, cpuRuns: bool)

  /** One cycle. `writeCycle` says whether the CPU is in a write cycle;
      `data` is the byte this cycle's read (if any) returns. */
  function Tick(d: Dma, writeCycle: bool, data: bv8): (r: Ticked)
    ensures r.dma.isOdd == !d.isOdd
    ensures r.cpuRuns <==> d.state.No? || (d.state.Req? && writeCycle)
  {
    var next: DmaState :=
      match d.state
      case No => No
      case Req(high) =>
        if writeCycle then Req(high)
        else if d.isOdd then Read(high, 0)
        else DummyRead(high)
      case DummyRead(high) => Read(high, 0)
      case Read(high, low) => Write(high, low, data)
      case Write(high, low, _) => if low == 255 then No else Read(high, low + 1);
    var cpuRuns := d.state.No? || (d.state.Req? && writeCycle);
    Ticked(Dma(!d.isOdd, next), cpuRuns)
  }

  /** A pending request waits out the CPU's write cycles. */
  lemma RequestWaitsForRead(d: Dma, data: bv8)
    requires d.state.Req?
    ensures Tick(d, true, data) == Ticked(Dma(!d.isOdd, d.state), true)
  {
  }

  /** A request starts reading at once on an odd cycle, after one dummy read
      of the page's first byte on an even one. */
  lemma RequestAlignment(d: Dma, data: bv8, data': bv8)
    requires d.state.Req?
    ensures d.isOdd ==> Tick(d, false, data).dma.state == Read(d.state.addrHigh, 0)
    ensures !d.isOdd ==> Tick(d, false, data).dma.state == DummyRead(d.state.addrHigh)
    ensures !d.isOdd ==> Tick(Tick(d, false, data).dma, false, data').dma.state == Read(d.state.addrHigh, 0)
  {
  }

  /** Memory as the DMA's reads see it. */
  type Memory = bv16 -> bv8

  /** The byte a cycle's read returns from `mem` (0 when it reads nothing). */
  function DataFor(d: Dma, mem: Memory): bv8 {
    match Access(d.state)
    case ReadAt(a) => mem(a)
    case _ => 0
  }

  /** What `n` cycles of DMA leave behind: the DMA, the bytes written to
      OAMDATA in order, and whether the CPU ran in any of them. */
  datatype Transfer = Transfer(dma: Dma, written: seq<bv8>, cpuRan: bool)

  /** Run `n` cycles with the CPU out of the way (a halted CPU is never in a
      write cycle), each read answered by `mem`. */
  function Run(d: Dma, mem: Memory, n: nat): (r: Transfer)
    decreases n
  {
    if n == 0 then Transfer(d, [], false)
    else
      var t := Tick(d, false, DataFor(d, mem));
      var rest := Run(t.dma, mem, n - 1);
      var written := if d.state.Write? then [d.state.value] else [];
      Transfer(rest.dma, written + rest.written, t.cpuRuns || rest.cpuRan)
  }

  /** One cycle of `Run`. */
  lemma RunStep(d: Dma, mem: Memory, n: nat)
    requires n > 0
    ensures var t := Tick(d, false, DataFor(d, mem));
            var rest := Run(t.dma, mem, n - 1);
            Run(d, mem, n) == Transfer(rest.dma, (if d.state.Write? then [d.state.value] else []) + rest.written, t.cpuRuns || rest.cpuRan)
  {
  }

  /** Byte `k` of page `high`. */
  function PageByte(mem: Memory, high: bv8, k: nat): bv8
    requires k < 256
  {
    mem(Word(high, ByteOf(k)))
  }

  /** The bytes of page `high` from offset `k` to the end, in order. */
  function PageFrom(mem: Memory, high: bv8, k: nat): (s: seq<bv8>)
    requires k <= 256
    ensures |s| == 256 - k
    decreases 256 - k
  {
    if k == 256 then [] else [PageByte(mem, high, k)] + PageFrom(mem, high, k + 1)
  }

  /** Byte `i` of the copy is byte `k + i` of the page. */
  lemma {:induction false} PageFromIndex(mem: Memory, high: bv8, k: nat, i: nat)
    requires k + i < 256
    ensures PageFrom(mem, high, k)[i] == PageByte(mem, high, k + i)
    decreases i
  {
    if i > 0 {
      assert PageFrom(mem, high, k)[i] == PageFrom(mem, high, k + 1)[i - 1];
      PageFromIndex(mem, high, k + 1, i - 1);
    }
  }

  /** The offset after offset `k`, as the 8-bit counter steps. */
  lemma NextOffset(k: nat)
    requires k < 255
    ensures ByteOf(k) != 255 && ByteOf(k) + 1 == ByteOf(k + 1)
  {
  }

  /** The read cycle of byte `k` fetches it and lets the CPU sleep. */
  lemma ReadStep(isOdd: bool, high: bv8, mem: Memory, k: nat, n: nat)
    requires k < 256 && n >= 1
    ensures Run(Dma(isOdd, Read(high, ByteOf(k))), mem, n)
         == Run(Dma(!isOdd, Write(high, ByteOf(k), PageByte(mem, high, k))), mem, n - 1)
  {
    var d := Dma(isOdd, Read(high, ByteOf(k)));
    RunStep(d, mem, n);
    assert DataFor(d, mem) == PageByte(mem, high, k);
  }

  /** The write cycle hands the byte to OAMDATA and moves to the next read,
      or ends the transfer after the last byte. */
  lemma WriteStep(isOdd: bool, high: bv8, low: bv8, value: bv8, mem: Memory, n: nat)
    requires n >= 1
    ensures var next := if low == 255 then No else Read(high, low + 1);
            var rest := Run(Dma(!isOdd, next), mem, n - 1);
            Run(Dma(isOdd, Write(high, low, value)), mem, n) == Transfer(rest.dma, [value] + rest.written, rest.cpuRan)
  {
    RunStep(Dma(isOdd, Write(high, low, value)), mem, n);
  }

  /** The read of byte `k` followed by its write cycle. */
  lemma ReadWritePair(isOdd: bool, high: bv8, mem: Memory, k: nat, n: nat)
    requires k < 256 && n >= 2
    ensures var next := if k == 255 then No else Read(high, ByteOf(k + 1));
            var rest := Run(Dma(isOdd, next), mem, n - 2);
            Run(Dma(isOdd, Read(high, ByteOf(k))), mem, n)
              == Transfer(rest.dma, [PageByte(mem, high, k)] + rest.written, rest.cpuRan)
  {
    ReadStep(isOdd, high, mem, k, n);
    WriteStep(!isOdd, high, ByteOf(k), PageByte(mem, high, k), mem, n - 1);
    if k < 255 {
      NextOffset(k);
    }
  }

  /** From the read of byte `k`, the transfer copies the rest of the page
      in order, one byte per two cycles, halts the CPU throughout, and ends
      with the DMA idle. */
  lemma {:induction false} TransferRest(isOdd: bool, high: bv8, mem: Memory, k: nat)
    requires k < 256
    ensures Run(Dma(isOdd, Read(high, ByteOf(k))), mem, 2 * (256 - k))
         == Transfer(Dma(isOdd, No), PageFrom(mem, high, k), false)
    decreases 256 - k
  {
    ReadWritePair(isOdd, high, mem, k, 2 * (256 - k));
    if k < 255 {
      TransferRest(isOdd, high, mem, k + 1);
    }
  }

  /** A whole transfer: from the request (on a read cycle) the 256 bytes of
      the page reach OAMDATA in order within `n` cycles, 513 of them, or 514
      when the request meets an even cycle, and the CPU is halted all along. */
  lemma WholePage(d: Dma, mem: Memory, n: nat)
    requires d.state.Req? && n == if d.isOdd then 513 else 514
    ensures Run(d, mem, n) == Transfer(Dma(false, No), PageFrom(mem, d.state.addrHigh, 0), false)
  {
    var high := d.state.addrHigh;
    var k: nat := 0;
    assert ByteOf(k) == 0;
    TransferRest(false, high, mem, k);
    RunStep(d, mem, n);
    if !d.isOdd {
      RunStep(Dma(true, DummyRead(high)), mem, n - 1);
    }
  }
}
