/** The console (covnes/src/nes/mod.rs): the CPU's address decoder, the
    PPU's view of the cartridge, and the master clock that gives the PPU
    three dots for every CPU cycle. The CPU operations the console calls but
    covnes/src/nes/cpu.rs defines (that file is not part of this model) and
    the buttons the player holds come from outside, in an `Env`. */
module Nes {
  import opened Common
  import Cpu6502
  import Ppu
  import PpuTick
  import Dma
  import Controller
  import Cartridges
  import MapperCommon

  /** The three phases of a CPU cycle, one master tick each. */
  datatype Phase = T1 | T2 | T3

  /** What the console gets from outside: the CPU's `poll_interrupts`,
      `clear_nmi` and `is_write_cycle`, and the buttons held right now. */
  datatype Env = Env(
    pollInterrupts: Cpu6502.Cpu -> Cpu6502.Cpu,
    clearNmi: Cpu6502.Cpu -> Cpu6502.Cpu,
    isWriteCycle: Cpu6502.Cpu -> bool,
    buttons: bv8)

  const RamSize: nat := 0x800

  /** The components as they can be: a PPU whose state is in range, a
      cartridge its constructor could have built, and memories of their
      sizes. */
  type PpuState = p: Ppu.Ppu | Ppu.Valid(p) witness Ppu.PowerOn()
  type Slot = c: Cartridges.Cartridge | Cartridges.Valid(c) witness Cartridges.NotConnected
  type Ram = s: seq<bv8> | |s| == RamSize witness Ppu.Zeros(RamSize)
  type Vram = s: seq<bv8> | |s| == MapperCommon.VramSize witness Ppu.Zeros(MapperCommon.VramSize)

  datatype Nes = Nes(
    cpu: Cpu6502.Cpu, ppu: PpuState, dma: Dma.Dma, cart: Slot,
    ram: Ram, cycle: Phase, vram: Vram, controllerLatch: bool, pad: Controller.Controller)

  function New(): (n: Nes)
    ensures n.cycle == T1 && n.cart.NotConnected? && !n.controllerLatch
  {
    Nes(Cpu6502.New(), Ppu.PowerOn(), Dma.PowerOn, Cartridges.NotConnected,
        Ppu.Zeros(RamSize), T1, Ppu.Zeros(MapperCommon.VramSize), false, Controller.PowerOn)
  }

  /** Reset reaches the CPU, the PPU and the DMA unit; memory, the
      cartridge, the phase and the controller keep their state. */
  function Reset(n: Nes): (r: Nes)
    ensures r == n.(cpu := Cpu6502.ResetCpu(n.cpu), ppu := Ppu.Reset(n.ppu), dma := Dma.Reset(n.dma))
    ensures r.cpu.state == Cpu6502.Reset && r.ppu.timing.dot == 0 && r.ppu.timing.scanline == 0 && !r.dma.isOdd
  {
    n.(cpu := Cpu6502.ResetCpu(n.cpu), ppu := Ppu.Reset(n.ppu), dma := Dma.Reset(n.dma))
  }

  function InsertCartridge(n: Nes, c: Slot): (r: Nes)
    ensures r.cart == c && r.(cart := n.cart) == n
  {
    n.(cart := c)
  }

  function RemoveCartridge(n: Nes): (r: Nes)
    ensures r.cart.NotConnected? && r.(cart := n.cart) == n
  {
    n.(cart := Cartridges.NotConnected)
  }

  // ---------------------------------------------------------------------
  // The PPU's bus

  /** The byte the cartridge returns to a PPU read; a read the cartridge
      refuses is caught when the read is performed (see `Perform`). */
  function HostByte(cart: Slot, vram: Vram, a: bv16): bv8 {
    var r := Cartridges.ReadPpu(cart, vram, a as int);
    if r.Ok? then r.value else 0
  }

  function Host(n: Nes): bv16 -> bv8 {
    a => HostByte(n.cart, n.vram, a)
  }

  /** A PPU read carried out: the cartridge answers it or aborts. */
  function PerformRead(n: Nes, a: bv16): (r: Outcome<Nes>)
    ensures r.Ok? <==> Cartridges.ReadPpu(n.cart, n.vram, a as int).Ok?
    ensures r.Ok? ==> r.value == n
  {
    var _ :- Cartridges.ReadPpu(n.cart, n.vram, a as int);
    Ok(n)
  }

  /** A PPU write carried out: the cartridge takes it (changing itself or
      the VRAM) or aborts. */
  function PerformWrite(n: Nes, a: bv16, v: bv8): (r: Outcome<Nes>)
    ensures r.Ok? <==> Cartridges.WritePpu(n.cart, n.vram, a as int, v).Ok?
    ensures r.Ok? ==> r.value == n.(cart := Cartridges.WritePpu(n.cart, n.vram, a as int, v).value.cart,
                                    vram := Cartridges.WritePpu(n.cart, n.vram, a as int, v).value.vram)
  {
    var w :- Cartridges.WritePpu(n.cart, n.vram, a as int, v);
    Ok(n.(cart := w.cart, vram := w.vram))
  }

  /** One PPU effect carried out on the console: reads go to the cartridge
      (aborting where it aborts), writes change the cartridge or the VRAM,
      NMI changes go to the CPU, pixels leave the console. */
  function Perform(n: Nes, env: Env, e: Ppu.Effect): (r: Outcome<Nes>)
    ensures r.Ok? ==> r.value.(cpu := n.cpu, cart := n.cart, vram := n.vram) == n
    ensures e.HostRead? ==> (r.Ok? <==> Cartridges.ReadPpu(n.cart, n.vram, e.addr as int).Ok?)
    ensures e.HostRead? && r.Ok? ==> r.value == n
    ensures e.TriggerNmi? ==> r == Ok(n.(cpu := Cpu6502.SetNmi(n.cpu)))
    ensures e.SuppressNmi? ==> r == Ok(n.(cpu := env.clearNmi(n.cpu)))
    ensures e.SetPixel? ==> r == Ok(n)
  {
    match e
    case HostRead(a) => PerformRead(n, a)
    case HostWrite(a, v) => PerformWrite(n, a, v)
    case TriggerNmi => Ok(n.(cpu := Cpu6502.SetNmi(n.cpu)))
    case SuppressNmi => Ok(n.(cpu := env.clearNmi(n.cpu)))
    case SetPixel(_, _, _) => Ok(n)
  }

  /** The effects of one PPU action, in order. */
  function PerformAll(n: Nes, env: Env, es: seq<Ppu.Effect>): (r: Outcome<Nes>)
    ensures r.Ok? ==> r.value.(cpu := n.cpu, cart := n.cart, vram := n.vram) == n
    decreases |es|
  {
    if es == [] then Ok(n)
    else
      var n' :- Perform(n, env, es[0]);
      PerformAll(n', env, es[1..])
  }

  /** A PPU action whose effects are only reads and pixels leaves the
      console as it was, or aborts on the first read the cartridge
      refuses. */
  lemma {:induction false} ReadsOnlyChangeNothing(n: Nes, env: Env, es: seq<Ppu.Effect>)
    requires forall i :: 0 <= i < |es| ==> es[i].HostRead? || es[i].SetPixel?
    ensures var r := PerformAll(n, env, es);
            && (r.Ok? <==> forall i :: 0 <= i < |es| && es[i].HostRead? ==>
                             Cartridges.ReadPpu(n.cart, n.vram, es[i].addr as int).Ok?)
            && (r.Ok? ==> r.value == n)
    decreases |es|
  {
    if es != [] {
      ReadsOnlyChangeNothing(n, env, es[1..]);
      assert forall i :: 1 <= i < |es| ==> es[i] == es[1..][i - 1];
    }
  }

  /** The pixels among a PPU action's effects. */
  function Pixels(es: seq<Ppu.Effect>): (ps: seq<Ppu.Effect>)
    ensures forall i :: 0 <= i < |ps| ==> ps[i].SetPixel? && ps[i] in es
    ensures forall e :: e in es && e.SetPixel? ==> e in ps
  {
    if es == [] then []
    else (if es[0].SetPixel? then [es[0]] else []) + Pixels(es[1..])
  }

  // ---------------------------------------------------------------------
  // The CPU's bus

  /** A value read and the console after the read. */
  datatype Loaded = Loaded(value: bv8, nes: Nes)

  /** The four 2 KB mirrors of the internal RAM below $2000. */
  function RamIndex(a: int): (i: nat)
    requires 0 <= a < 0x2000
    ensures i < RamSize && i == a % RamSize
  {
    if a <= 0x07FF then a
    else if a <= 0x0FFF then a - 0x800
    else if a <= 0x17FF then a - 0x1000
    else a - 0x1800
  }

  /** The PPU register a $2000-$3FFF address selects: one of eight,
      repeated every eight bytes. */
  function PpuReg(a: int): (reg: bv8)
    requires 0x2000 <= a <= 0x3FFF
    ensures reg < 8 && reg as int == a % 8
  {
    ByteOf((a - 0x2000) % 8)
  }

  /** A CPU read of a PPU register, with the PPU's effects carried out. */
  function ReadPpuReg(n: Nes, env: Env, reg: bv8): (r: Outcome<Loaded>)
  {
    var rr := Ppu.RegRead(n.ppu, Host(n), reg);
    var n' :- PerformAll(n.(ppu := rr.ppu), env, rr.effects);
    Ok(Loaded(rr.value, n'))
  }

  /** A read of port 1, which may shift the controller. */
  function ReadPad(n: Nes, env: Env): (r: Loaded)
    ensures r.nes == n.(pad := r.nes.pad)
    ensures var pr := Controller.Port1Read(n.pad, env.buttons); r.value == pr.lines && r.nes.pad == pr.ctrl
  {
    var pr := Controller.Port1Read(n.pad, env.buttons);
    Loaded(pr.lines, n.(pad := pr.ctrl))
  }

  function ReadCart(n: Nes, a: int): (r: Outcome<Loaded>)
    requires 0x4020 <= a <= 0xFFFF
    ensures r.Ok? <==> Cartridges.ReadCpu(n.cart, a).Ok?
    ensures r.Ok? ==> r.value == Loaded(Cartridges.ReadCpu(n.cart, a).value, n)
  {
    var v :- Cartridges.ReadCpu(n.cart, a);
    Ok(Loaded(v, n))
  }

  /** The CPU's read of `addr`: internal RAM, the PPU registers, the
      controller ports, the silent APU range, the CPU test range (which
      aborts) and the cartridge. */
  function CpuRead(n: Nes, env: Env, addr: bv16): (r: Outcome<Loaded>)
  {
    var a := addr as int;
    if a <= 0x1FFF then Ok(Loaded(n.ram[RamIndex(a)], n))
    else if a <= 0x3FFF then ReadPpuReg(n, env, PpuReg(a))
    else if a == 0x4016 then Ok(ReadPad(n, env))
    else if a == 0x4017 then Ok(Loaded(Controller.Port2Read(n.pad), n))
    else if a <= 0x4017 then Ok(Loaded(0, n))
    else if a <= 0x401F then Panic("Read from CPU test stuff")
    else ReadCart(n, a)
  }

  /** A CPU write of a PPU register, with the PPU's effects carried out. */
  function WritePpuReg(n: Nes, env: Env, reg: bv8, value: bv8): (r: Outcome<Nes>)
  {
    var s := Ppu.RegWrite(n.ppu, reg, value);
    PerformAll(n.(ppu := s.ppu), env, s.effects)
  }

  /** A write of $4016: the controller hears only a change of bit 0. */
  function WriteLatch(n: Nes, env: Env, value: bv8): (r: Nes)
    ensures r == n.(controllerLatch := r.controllerLatch, pad := r.pad)
    ensures r.controllerLatch == (value & 1 == 1)
    ensures (value & 1 == 1) == n.controllerLatch ==> r == n
    ensures (value & 1 == 1) != n.controllerLatch ==> r.pad == Controller.LatchChange(n.pad, value & 1 == 1, env.buttons)
  {
    var high := value & 1 == 1;
    if high != n.controllerLatch then
      n.(controllerLatch := high, pad := Controller.LatchChange(n.pad, high, env.buttons))
    else n
  }

  function StoreRam(n: Nes, i: nat, value: bv8): (r: Nes)
    requires i < RamSize
    ensures r == n.(ram := n.ram[i := value])
  {
    n.(ram := n.ram[i := value])
  }

  function StartDma(n: Nes, value: bv8): (r: Nes)
    ensures r == n.(dma := Dma.TriggerOamDma(n.dma, value))
  {
    n.(dma := Dma.TriggerOamDma(n.dma, value))
  }

  function WriteCart(n: Nes, a: int, value: bv8): (r: Outcome<Nes>)
    requires 0x4020 <= a <= 0xFFFF
    ensures r.Ok? <==> Cartridges.WriteCpu(n.cart, a, value).Ok?
    ensures r.Ok? ==> r.value == n.(cart := Cartridges.WriteCpu(n.cart, a, value).value)
  {
    var c :- Cartridges.WriteCpu(n.cart, a, value);
    Ok(n.(cart := c))
  }

  /** The CPU's write of `value` to `addr`, decoded as the read is; $4014
      starts an OAM DMA and $4016 drives the controller latch. */
  function CpuWrite(n: Nes, env: Env, addr: bv16, value: bv8): (r: Outcome<Nes>)
  {
    var a := addr as int;
    if a <= 0x1FFF then Ok(StoreRam(n, RamIndex(a), value))
    else if a <= 0x3FFF then WritePpuReg(n, env, PpuReg(a), value)
    else if a == 0x4014 then Ok(StartDma(n, value))
    else if a == 0x4016 then Ok(WriteLatch(n, env, value))
    else if a <= 0x4017 then Ok(n)
    else if a <= 0x401F then Panic("Write to CPU test stuff")
    else WriteCart(n, a, value)
  }

  // ---------------------------------------------------------------------
  // The clock

  /** What a master tick leaves: the console and the pixels it drew. */
  datatype Ticked = Ticked(nes: Nes, pixels: seq<Ppu.Effect>)

  /** The byte a bus access returns (0 for a write or no access) and the
      console after it. */
  function Serve(n: Nes, env: Env, a: Cpu6502.Access): (r: Outcome<Loaded>)
    ensures a.NoAccess? ==> r == Ok(Loaded(0, n))
    ensures a.ReadAt? ==> r == CpuRead(n, env, a.addr)
    ensures a.WriteAt? ==> r.Ok? == CpuWrite(n, env, a.addr, a.value).Ok?
    ensures a.WriteAt? && r.Ok? ==> r.value == Loaded(0, CpuWrite(n, env, a.addr, a.value).value)
  {
    match a
    case NoAccess => Ok(Loaded(0, n))
    case ReadAt(addr) => CpuRead(n, env, addr)
    case WriteAt(addr, v) =>
      var n' :- CpuWrite(n, env, addr, v);
      Ok(Loaded(0, n'))
  }

  /** The bus access of a DMA cycle, in the CPU's terms. */
  function DmaBusAccess(a: Dma.DmaAccess): (r: Cpu6502.Access)
    ensures a.NoAccess? <==> r.NoAccess?
    ensures a.ReadAt? ==> r == Cpu6502.ReadAt(a.addr)
    ensures a.WriteAt? ==> r == Cpu6502.WriteAt(a.addr, a.value)
  {
    match a
    case NoAccess => Cpu6502.NoAccess
    case ReadAt(addr) => Cpu6502.ReadAt(addr)
    case WriteAt(addr, v) => Cpu6502.WriteAt(addr, v)
  }

  /** One CPU clock: the CPU performs its access and steps, taking the NMI
      line as the access left it. An illegal opcode aborts. */
  function CpuTick(n: Nes, env: Env): (r: Outcome<Nes>)
  {
    var l :- Serve(n, env, Cpu6502.Request(n.cpu));
    match Cpu6502.Step(n.cpu, l.value, l.nes.cpu.nmi)
    case IllegalOpcode(_) => Panic("Illegal opcode")
    case Continue(c) => Ok(l.nes.(cpu := c))
  }

  /** `perform_cpu_cycle`: the DMA unit takes the cycle first (reading or
      writing through the CPU's bus); the CPU runs only when the DMA lets
      it. */
  function CpuCycle(n: Nes, env: Env): (r: Outcome<Nes>)
  {
    var l :- Serve(n, env, DmaBusAccess(Dma.Access(n.dma.state)));
    var t := Dma.Tick(n.dma, env.isWriteCycle(n.cpu), l.value);
    var n' := l.nes.(dma := t.dma);
    if t.cpuRuns then CpuTick(n', env) else Ok(n')
  }

  /** One PPU dot with its effects carried out. */
  function PpuDot(n: Nes, env: Env): (r: Outcome<Ticked>)
  {
    var s := PpuTick.Tick(n.ppu, Host(n));
    var n' :- PerformAll(n.(ppu := s.ppu), env, s.effects);
    Ok(Ticked(n', Pixels(s.effects)))
  }

  function NextPhase(c: Phase): Phase {
    match c
    case T1 => T2
    case T2 => T3
    case T3 => T1
  }

  /** What a phase does before its PPU dot. */
  function PhaseWork(n: Nes, env: Env): (r: Outcome<Nes>)
    ensures n.cycle == T1 ==> r == CpuCycle(n, env)
    ensures n.cycle == T2 ==> r == Ok(n.(cpu := env.pollInterrupts(n.cpu)))
    ensures n.cycle == T3 ==> r == Ok(n)
  {
    match n.cycle
    case T1 => CpuCycle(n, env)
    case T2 => Ok(n.(cpu := env.pollInterrupts(n.cpu)))
    case T3 => Ok(n)
  }

  function SetCycle(n: Nes, c: Phase): (r: Nes)
    ensures r == n.(cycle := c)
  {
    n.(cycle := c)
  }

  /** One master tick: T1 runs the (DMA-gated) CPU cycle and then a PPU dot,
      T2 polls the interrupt lines and then runs a dot, T3 only runs a dot;
      the phase moves on. */
  function Tick(n: Nes, env: Env): (r: Outcome<Ticked>)
    ensures r.Ok? ==> r.value.nes.cycle == NextPhase(n.cycle)
  {
    var n1 :- PhaseWork(n, env);
    var t :- PpuDot(n1, env);
    Ok(Ticked(SetCycle(t.nes, NextPhase(n.cycle)), t.pixels))
  }

  /** `k` master ticks in a row, their pixels in order. */
  function Ticks(n: Nes, env: Env, k: nat): (r: Outcome<Ticked>)
    decreases k
  {
    if k == 0 then Ok(Ticked(n, []))
    else
      var t :- Tick(n, env);
      var u :- Ticks(t.nes, env, k - 1);
      Ok(Ticked(u.nes, t.pixels + u.pixels))
  }

  /** Ticks still needed to get back to T1. */
  function ToT1(c: Phase): nat {
    match c
    case T1 => 0
    case T2 => 2
    case T3 => 1
  }

  /** Tick until the phase is T1 again; the pixels of all ticks are kept. */
  function TickToT1(n: Nes, env: Env): (r: Outcome<Ticked>)
    ensures r.Ok? ==> r.value.nes.cycle == T1
    decreases ToT1(n.cycle)
  {
    if n.cycle == T1 then Ok(Ticked(n, []))
    else
      var t :- Tick(n, env);
      var u :- TickToT1(t.nes, env);
      Ok(Ticked(u.nes, t.pixels + u.pixels))
  }

  /** `tick_cpu`: one tick, then ticks until the phase is T1 again. */
  function TickCpu(n: Nes, env: Env): (r: Outcome<Ticked>)
    ensures r.Ok? ==> r.value.nes.cycle == T1
  {
    var t :- Tick(n, env);
    var u :- TickToT1(t.nes, env);
    Ok(Ticked(u.nes, t.pixels + u.pixels))
  }
}

/** What the console's address decoder and clock promise. */
module NesProps {
  import opened Common
  import Cpu6502
  import Ppu
  import Dma
  import Controller
  import Cartridges
  import opened Nes

  /** Below $2000 every address reads the RAM byte at its offset mod 2 KB,
      and the read changes nothing. */
  lemma RamMirror(n: Nes, env: Env, a: bv16)
    requires a < 0x2000
    ensures CpuRead(n, env, a) == Ok(Loaded(n.ram[a as int % RamSize], n))
  {
  }

  /** A RAM write is seen through all four mirrors of its cell and through
      no other address below $2000. */
  lemma RamRoundTrip(n: Nes, env: Env, a: bv16, b: bv16, v: bv8)
    requires a < 0x2000 && b < 0x2000
    ensures CpuWrite(n, env, a, v).Ok?
    ensures var w := CpuWrite(n, env, a, v).value;
            && w == n.(ram := w.ram)
            && CpuRead(w, env, b) == Ok(Loaded(if a as int % RamSize == b as int % RamSize then v
                                               else n.ram[b as int % RamSize], w))
  {
    var w := StoreRam(n, RamIndex(a as int), v);
    assert CpuWrite(n, env, a, v) == Ok(w);
    RamMirror(w, env, b);
  }

  /** Two addresses of $2000-$3FFF that agree mod 8 are the same PPU
      register, for reads and for writes. */
  lemma PpuRegisterMirror(n: Nes, env: Env, a: bv16, b: bv16, v: bv8)
    requires 0x2000 <= a <= 0x3FFF && 0x2000 <= b <= 0x3FFF && a as int % 8 == b as int % 8
    ensures CpuRead(n, env, a) == CpuRead(n, env, b)
    ensures CpuWrite(n, env, a, v) == CpuWrite(n, env, b, v)
  {
    assert PpuReg(a as int) == PpuReg(b as int);
  }

  /** $4016 reads the controller on port 1 (shifting it when the latch is
      low); $4017 reads an empty port 2. */
  lemma ControllerPorts(n: Nes, env: Env)
    ensures var pr := Controller.Port1Read(n.pad, env.buttons);
            CpuRead(n, env, 0x4016) == Ok(Loaded(pr.lines, n.(pad := pr.ctrl)))
    ensures CpuRead(n, env, 0x4017) == Ok(Loaded(0, n))
  {
  }

  /** A $4016 write tells the controller about bit 0 only when it differs
      from the latch line as last driven. */
  lemma LatchOnlyOnChange(n: Nes, env: Env, v: bv8)
    ensures var high := v & 1 == 1;
            CpuWrite(n, env, 0x4016, v)
            == Ok(if high == n.controllerLatch then n
                  else n.(controllerLatch := high, pad := Controller.LatchChange(n.pad, high, env.buttons)))
  {
  }

  /** A $4014 write requests an OAM DMA of page `v` and does nothing else. */
  lemma DmaRequest(n: Nes, env: Env, v: bv8)
    ensures CpuWrite(n, env, 0x4014, v) == Ok(n.(dma := n.dma.(state := Dma.Req(v))))
  {
  }

  /** Without a transfer in progress a DMA cycle touches nothing on the
      console's bus. */
  lemma DmaIdleCycle(n: Nes, env: Env)
    requires n.dma.state.No? || n.dma.state.Req?
    ensures Serve(n, env, DmaBusAccess(Dma.Access(n.dma.state))) == Ok(Loaded(0, n))
  {
  }

  /** A DMA write cycle is the PPU's $2004 write of the byte read before
      it, with the PPU's effects carried out. */
  lemma DmaWriteCycle(n: Nes, env: Env)
    requires n.dma.state.Write?
    ensures var l := Serve(n, env, DmaBusAccess(Dma.Access(n.dma.state)));
            var w := WritePpuReg(n, env, 4, n.dma.state.value);
            l.Ok? == w.Ok? && (l.Ok? ==> l.value == Loaded(0, w.value))
  {
    assert Dma.Access(n.dma.state) == Dma.WriteAt(0x2004, n.dma.state.value);
    assert PpuReg(0x2004) == 4;
  }

  /** A DMA read cycle from a page below $2000 reads the RAM byte at that
      page and offset, modulo 2 KB, and changes nothing. */
  lemma DmaRamReadCycle(n: Nes, env: Env)
    requires n.dma.state.Read? && n.dma.state.addrHigh < 0x20
    ensures var a := Word(n.dma.state.addrHigh, n.dma.state.addrLow);
            Serve(n, env, DmaBusAccess(Dma.Access(n.dma.state))) == Ok(Loaded(n.ram[a as int % RamSize], n))
  {
    var a := Word(n.dma.state.addrHigh, n.dma.state.addrLow);
    PageWord(n.dma.state.addrHigh, n.dma.state.addrLow);
    assert Dma.Access(n.dma.state) == Dma.ReadAt(a);
  }

  /** A page below $2000 and any offset make an address below $2000. */
  lemma PageWord(high: bv8, low: bv8)
    requires high < 0x20
    ensures Word(high, low) < 0x2000
  {
  }

  /** The rest of $4000-$4017 (the APU) reads 0 and ignores writes. */
  lemma ApuSilent(n: Nes, env: Env, a: bv16, v: bv8)
    requires 0x4000 <= a <= 0x4017
    ensures a != 0x4016 ==> CpuRead(n, env, a) == Ok(Loaded(0, n))
    ensures a != 0x4014 && a != 0x4016 ==> CpuWrite(n, env, a, v) == Ok(n)
  {
  }

  /** $4018-$401F (the CPU test registers) aborts on every access. */
  lemma TestRangeAborts(n: Nes, env: Env, a: bv16, v: bv8)
    requires 0x4018 <= a <= 0x401F
    ensures CpuRead(n, env, a) == Panic("Read from CPU test stuff")
    ensures CpuWrite(n, env, a, v) == Panic("Write to CPU test stuff")
  {
  }

  /** $4020 and above belongs to the cartridge, for reads and writes. */
  lemma CartridgeSpace(n: Nes, env: Env, a: bv16, v: bv8)
    requires 0x4020 <= a
    ensures CpuRead(n, env, a) == ReadCart(n, a as int)
    ensures CpuWrite(n, env, a, v) == WriteCart(n, a as int, v)
    ensures CpuRead(n, env, a).Ok? <==> Cartridges.ReadCpu(n.cart, a as int).Ok?
    ensures CpuRead(n, env, a).Ok? ==> CpuRead(n, env, a).value == Loaded(Cartridges.ReadCpu(n.cart, a as int).value, n)
    ensures CpuWrite(n, env, a, v).Ok? <==> Cartridges.WriteCpu(n.cart, a as int, v).Ok?
    ensures CpuWrite(n, env, a, v).Ok? ==> CpuWrite(n, env, a, v).value == n.(cart := Cartridges.WriteCpu(n.cart, a as int, v).value)
  {
    assert CpuRead(n, env, a) == ReadCart(n, a as int);
    assert CpuWrite(n, env, a, v) == WriteCart(n, a as int, v);
  }

  /** The phases rotate T1, T2, T3, and every tick runs exactly one PPU
      dot, after the phase's own work: the CPU cycle in T1, the interrupt
      poll in T2, nothing in T3. */
  lemma OneDotPerTick(n: Nes, env: Env)
    ensures var w := PhaseWork(n, env);
            var r := Tick(n, env);
            && (r.Ok? ==> w.Ok? && r.value.nes.cycle == NextPhase(n.cycle)
                          && r.value.nes.ppu == PpuTick.Tick(w.value.ppu, Host(w.value)).ppu)
            && (w.Ok? && PpuDot(w.value, env).Ok? ==> r.Ok?)
  {
  }

  /** Outside T1 neither the CPU's bus nor the DMA unit moves: RAM, the
      DMA state and the controller are as they were. */
  lemma CpuOnlyInT1(n: Nes, env: Env)
    requires n.cycle != T1
    ensures var r := Tick(n, env);
            r.Ok? ==> r.value.nes.dma == n.dma && r.value.nes.ram == n.ram && r.value.nes.pad == n.pad
                      && r.value.nes.controllerLatch == n.controllerLatch
  {
    DotKeepsBus(PhaseWork(n, env).value, env);
  }

  /** A PPU dot and its effects leave RAM, the DMA state and the controller
      alone. */
  lemma DotKeepsBus(n: Nes, env: Env)
    ensures var r := PpuDot(n, env);
            r.Ok? ==> r.value.nes.dma == n.dma && r.value.nes.ram == n.ram && r.value.nes.pad == n.pad
                      && r.value.nes.controllerLatch == n.controllerLatch
  {
    var s := PpuTick.Tick(n.ppu, Host(n));
    var p := PerformAll(n.(ppu := s.ppu), env, s.effects);
    assert p.Ok? ==> p.value.(cpu := n.cpu, cart := n.cart, vram := n.vram, ppu := n.ppu) == n;
  }

  /** Ticking back to T1 takes exactly as many ticks as the phase is away
      from it. */
  lemma {:induction false} TickToT1Counts(n: Nes, env: Env)
    ensures TickToT1(n, env) == Ticks(n, env, ToT1(n.cycle))
    decreases ToT1(n.cycle)
  {
    if n.cycle != T1 {
      var t := Tick(n, env);
      if t.Ok? {
        TickToT1Counts(t.value.nes, env);
      }
    }
  }

  /** `tick_cpu` is one tick plus the ticks back to T1: from T1 exactly
      three, so the PPU runs three dots per CPU cycle. */
  lemma TickCpuCounts(n: Nes, env: Env)
    ensures TickCpu(n, env) == Ticks(n, env, 1 + ToT1(NextPhase(n.cycle)))
    ensures n.cycle == T1 ==> TickCpu(n, env) == Ticks(n, env, 3)
  {
    var t := Tick(n, env);
    if t.Ok? {
      TickToT1Counts(t.value.nes, env);
    }
  }
}
