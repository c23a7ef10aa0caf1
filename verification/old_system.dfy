/** The older console (covnes/src/system.rs): the same address decoder as
    the current one without DMA and controllers, the background-only PPU
    of covnes/src/ppu.rs, a frame buffer the PPU draws into, and a master
    clock whose every phase runs a PPU dot and whose third phase then runs
    the CPU. The cartridge slot is the current cartridge model
    (covnes/src/mappers/mod.rs, which the older console dispatches
    through, is not part of this model). */
module OldSystem {
  import opened Common
  import Cpu6502
  import Ppu
  import OldPpu
  import Cartridges
  import Nes
  import MapperCommon

  type PpuState = p: OldPpu.State | OldPpu.Valid(p) witness OldPpu.PowerOn()

  /** A frame-buffer cell: the black it starts as, or the palette byte a
      pixel was drawn with (the palette's RGB table is not modelled). */
  datatype Colour = Black | Entry(value: bv8)

  const Width: nat := 256
  const Height: nat := 240

  type Frame = s: seq<Colour> | |s| == Width * Height witness seq(Width * Height, _ => Black)

  datatype System = System(
    cpu: Cpu6502.Cpu, ppu: PpuState, cart: Nes.Slot, ram: Nes.Ram, cycle: Nes.Phase, pixels: Frame, vram: Nes.Vram)

  function New(): (n: System)
    ensures n.cycle == Nes.T1 && n.cart.NotConnected? && OldPpu.IsAtFrameEnd(n.ppu)
    ensures forall i :: 0 <= i < |n.pixels| ==> n.pixels[i] == Black
  {
    System(Cpu6502.New(), OldPpu.PowerOn(), Cartridges.NotConnected, Ppu.Zeros(Nes.RamSize), Nes.T1,
           seq(Width * Height, _ => Black), Ppu.Zeros(MapperCommon.VramSize))
  }

  /** Reset reaches the CPU and the PPU only. */
  function Reset(n: System): (r: System)
    ensures r == n.(cpu := Cpu6502.ResetCpu(n.cpu), ppu := OldPpu.Reset(n.ppu))
    ensures r.cpu.state == Cpu6502.Reset && OldPpu.IsAtFrameEnd(r.ppu)
  {
    n.(cpu := Cpu6502.ResetCpu(n.cpu), ppu := OldPpu.Reset(n.ppu))
  }

  function InsertCartridge(n: System, c: Nes.Slot): (r: System)
    ensures r.cart == c && r.(cart := n.cart) == n
  {
    n.(cart := c)
  }

  function RemoveCartridge(n: System): (r: System)
    ensures r.cart.NotConnected? && r.(cart := n.cart) == n
  {
    n.(cart := Cartridges.NotConnected)
  }

  // ---------------------------------------------------------------------
  // The frame buffer

  /** The cell of row `row`, column `col`: row-major, 256 to a row. */
  function PixelIndex(row: int, col: int): int {
    row * Width + col
  }

  /** `get_pixel`: the cell, or an abort past the end of the buffer. */
  function GetPixel(n: System, row: int, col: int): (r: Outcome<Colour>)
    requires 0 <= row && 0 <= col
    ensures r.Ok? <==> PixelIndex(row, col) < Width * Height
    ensures 0 <= row < Height && 0 <= col < Width ==> r == Ok(n.pixels[row * 256 + col])
  {
    var i := PixelIndex(row, col);
    if i < |n.pixels| then Ok(n.pixels[i]) else Panic("index out of bounds")
  }

  /** `ppu_set_pixel`: store the colour in the cell, or abort past the end
      of the buffer. */
  function SetPixel(n: System, row: int, col: int, c: Colour): (r: Outcome<System>)
    ensures r.Ok? <==> 0 <= PixelIndex(row, col) < Width * Height
    ensures r.Ok? ==> r.value == n.(pixels := r.value.pixels)
  {
    var i := PixelIndex(row, col);
    if 0 <= i < |n.pixels| then Ok(n.(pixels := n.pixels[i := c])) else Panic("index out of bounds")
  }

  /** A pixel set on the screen is read back at its row and column, and
      every other pixel of the screen keeps its colour. */
  lemma PixelRoundTrip(n: System, row: int, col: int, c: Colour, row': int, col': int)
    requires 0 <= row < Height && 0 <= col < Width && 0 <= row' < Height && 0 <= col' < Width
    ensures SetPixel(n, row, col, c).Ok?
    ensures GetPixel(SetPixel(n, row, col, c).value, row', col')
            == if row == row' && col == col' then Ok(c) else GetPixel(n, row', col')
  {
    assert PixelIndex(row, col) == PixelIndex(row', col') ==> row == row' && col == col';
  }

  // ---------------------------------------------------------------------
  // The PPU's bus

  function Host(n: System): bv16 -> bv8 {
    a => Nes.HostByte(n.cart, n.vram, a)
  }

  /** A PPU read carried out: the cartridge answers it or aborts. */
  function PerformRead(n: System, a: bv16): (r: Outcome<System>)
    ensures r.Ok? <==> Cartridges.ReadPpu(n.cart, n.vram, a as int).Ok?
    ensures r.Ok? ==> r.value == n
  {
    var _ :- Cartridges.ReadPpu(n.cart, n.vram, a as int);
    Ok(n)
  }

  /** A PPU write carried out: the cartridge takes it (changing itself or
      the VRAM) or aborts. */
  function PerformWrite(n: System, a: bv16, v: bv8): (r: Outcome<System>)
    ensures r.Ok? <==> Cartridges.WritePpu(n.cart, n.vram, a as int, v).Ok?
    ensures r.Ok? ==> r.value == n.(cart := Cartridges.WritePpu(n.cart, n.vram, a as int, v).value.cart,
                                    vram := Cartridges.WritePpu(n.cart, n.vram, a as int, v).value.vram)
  {
    var w :- Cartridges.WritePpu(n.cart, n.vram, a as int, v);
    Ok(n.(cart := w.cart, vram := w.vram))
  }

  /** One PPU effect carried out: reads go to the cartridge (aborting where
      it aborts), writes change the cartridge or the VRAM, an NMI reaches
      the CPU, a pixel lands in the frame buffer. */
  function Perform(n: System, e: Ppu.Effect): (r: Outcome<System>)
    ensures r.Ok? ==> r.value.(cpu := n.cpu, cart := n.cart, vram := n.vram, pixels := n.pixels) == n
    ensures e.HostRead? ==> (r.Ok? <==> Cartridges.ReadPpu(n.cart, n.vram, e.addr as int).Ok?)
    ensures e.HostRead? && r.Ok? ==> r.value == n
    ensures e.TriggerNmi? ==> r == Ok(n.(cpu := Cpu6502.SetNmi(n.cpu)))
    ensures e.SetPixel? ==> r == SetPixel(n, e.row, e.col, Entry(e.colour))
  {
    match e
    case HostRead(a) => PerformRead(n, a)
    case HostWrite(a, v) => PerformWrite(n, a, v)
    case TriggerNmi => Ok(n.(cpu := Cpu6502.SetNmi(n.cpu)))
    case SuppressNmi => Ok(n)
    case SetPixel(row, col, colour) => SetPixel(n, row, col, Entry(colour))
  }

  /** The effects of one PPU action, in order. */
  function PerformAll(n: System, es: seq<Ppu.Effect>): (r: Outcome<System>)
    ensures r.Ok? ==> r.value.(cpu := n.cpu, cart := n.cart, vram := n.vram, pixels := n.pixels) == n
    decreases |es|
  {
    if es == [] then Ok(n)
    else
      var n' :- Perform(n, es[0]);
      PerformAll(n', es[1..])
  }

  /** Without NMI effects the CPU is untouched by a PPU action. */
  lemma {:induction false} PerformKeepsCpu(n: System, es: seq<Ppu.Effect>)
    requires forall i :: 0 <= i < |es| ==> !es[i].TriggerNmi?
    ensures PerformAll(n, es).Ok? ==> PerformAll(n, es).value.cpu == n.cpu
    decreases |es|
  {
    if es != [] {
      var r := Perform(n, es[0]);
      if r.Ok? {
        assert r.value.cpu == n.cpu;
        assert forall i :: 0 <= i < |es[1..]| ==> es[1..][i] == es[i + 1];
        PerformKeepsCpu(r.value, es[1..]);
      }
    }
  }

  /** A PPU action's effects can change the CPU only by raising its NMI
      line. */
  lemma {:induction false} PerformOnlyRaisesNmi(n: System, es: seq<Ppu.Effect>)
    ensures PerformAll(n, es).Ok? ==>
              var c := PerformAll(n, es).value.cpu;
              c == n.cpu || c == Cpu6502.SetNmi(n.cpu)
    decreases |es|
  {
    if es != [] {
      var r := Perform(n, es[0]);
      if r.Ok? {
        PerformOnlyRaisesNmi(r.value, es[1..]);
      }
    }
  }

  // ---------------------------------------------------------------------
  // The CPU's bus

  /** A value read and the console after the read. */
  datatype Loaded = Loaded(value: bv8, nes: System)

  /** A CPU read of a PPU register, with the PPU's effects carried out. */
  function ReadPpuReg(n: System, reg: bv8): (r: Outcome<Loaded>)
  {
    var rr := OldPpu.RegRead(n.ppu, Host(n), reg);
    var n' :- PerformAll(n.(ppu := rr.ppu), rr.effects);
    Ok(Loaded(rr.value, n'))
  }

  function ReadCart(n: System, a: int): (r: Outcome<Loaded>)
    requires 0x4020 <= a <= 0xFFFF
    ensures r.Ok? <==> Cartridges.ReadCpu(n.cart, a).Ok?
    ensures r.Ok? ==> r.value == Loaded(Cartridges.ReadCpu(n.cart, a).value, n)
  {
    var v :- Cartridges.ReadCpu(n.cart, a);
    Ok(Loaded(v, n))
  }

  /** The CPU's read of `addr`: internal RAM (mirrored every 2 KB), the
      PPU registers (mirrored every 8 bytes), the silent APU range, the
      CPU test range (which aborts) and the cartridge. */
  function CpuRead(n: System, addr: bv16): (r: Outcome<Loaded>)
  {
    var a := addr as int;
    if a <= 0x1FFF then Ok(Loaded(n.ram[Nes.RamIndex(a)], n))
    else if a <= 0x3FFF then ReadPpuReg(n, Nes.PpuReg(a))
    else if a <= 0x4017 then Ok(Loaded(0, n))
    else if a <= 0x401F then Panic("Read from CPU test stuff")
    else ReadCart(n, a)
  }

  /** A CPU write of a PPU register, with the PPU's effects carried out. */
  function WritePpuReg(n: System, reg: bv8, value: bv8): (r: Outcome<System>)
  {
    var s := OldPpu.RegWrite(n.ppu, reg, value);
    PerformAll(n.(ppu := s.ppu), s.effects)
  }

  function StoreRam(n: System, i: nat, value: bv8): (r: System)
    requires i < Nes.RamSize
    ensures r == n.(ram := n.ram[i := value])
  {
    n.(ram := n.ram[i := value])
  }

  function WriteCart(n: System, a: int, value: bv8): (r: Outcome<System>)
    requires 0x4020 <= a <= 0xFFFF
    ensures r.Ok? <==> Cartridges.WriteCpu(n.cart, a, value).Ok?
    ensures r.Ok? ==> r.value == n.(cart := Cartridges.WriteCpu(n.cart, a, value).value)
  {
    var c :- Cartridges.WriteCpu(n.cart, a, value);
    Ok(n.(cart := c))
  }

  /** The CPU's write of `value` to `addr`, decoded as the read is. */
  function CpuWrite(n: System, addr: bv16, value: bv8): (r: Outcome<System>)
  {
    var a := addr as int;
    if a <= 0x1FFF then Ok(StoreRam(n, Nes.RamIndex(a), value))
    else if a <= 0x3FFF then WritePpuReg(n, Nes.PpuReg(a), value)
    else if a <= 0x4017 then Ok(n)
    else if a <= 0x401F then Panic("Write to CPU test stuff")
    else WriteCart(n, a, value)
  }

  // ---------------------------------------------------------------------
  // The clock

  /** The byte a bus access returns (0 for a write or no access) and the
      console after it. */
  function Serve(n: System, a: Cpu6502.Access): (r: Outcome<Loaded>)
    ensures a.NoAccess? ==> r == Ok(Loaded(0, n))
    ensures a.ReadAt? ==> r == CpuRead(n, a.addr)
    ensures a.WriteAt? ==> r.Ok? == CpuWrite(n, a.addr, a.value).Ok?
    ensures a.WriteAt? && r.Ok? ==> r.value == Loaded(0, CpuWrite(n, a.addr, a.value).value)
  {
    match a
    case NoAccess => Ok(Loaded(0, n))
    case ReadAt(addr) => CpuRead(n, addr)
    case WriteAt(addr, v) =>
      var n' :- CpuWrite(n, addr, v);
      Ok(Loaded(0, n'))
  }

  /** One CPU cycle: the CPU performs its access and steps, taking the NMI
      line as the access left it. An illegal opcode aborts. */
  function CpuTick(n: System): (r: Outcome<System>)
  {
    var l :- Serve(n, Cpu6502.Request(n.cpu));
    match Cpu6502.Step(n.cpu, l.value, l.nes.cpu.nmi)
    case IllegalOpcode(_) => Panic("Illegal opcode")
    case Continue(c) => Ok(l.nes.(cpu := c))
  }

  /** One PPU dot with its effects carried out. */
  function PpuDot(n: System): (r: Outcome<System>)
  {
    var s := OldPpu.Tick(n.ppu, Host(n));
    PerformAll(n.(ppu := s.ppu), s.effects)
  }

  /** One master tick: a PPU dot in every phase, and in T3 the CPU cycle
      after it; the phase moves on. */
  function Tick(n: System): (r: Outcome<System>)
    ensures r.Ok? ==> r.value.cycle == Nes.NextPhase(n.cycle)
  {
    var d :- PpuDot(n);
    if n.cycle == Nes.T3 then
      var c :- CpuTick(d);
      Ok(c.(cycle := Nes.T1))
    else Ok(d.(cycle := Nes.NextPhase(n.cycle)))
  }

  /** `k` master ticks in a row. */
  function Ticks(n: System, k: nat): (r: Outcome<System>)
    decreases k
  {
    if k == 0 then Ok(n)
    else
      var t :- Tick(n);
      Ticks(t, k - 1)
  }

  /** Tick until the phase is T1 again. */
  function TickToT1(n: System): (r: Outcome<System>)
    ensures r.Ok? ==> r.value.cycle == Nes.T1
    decreases Nes.ToT1(n.cycle)
  {
    if n.cycle == Nes.T1 then Ok(n)
    else
      var t :- Tick(n);
      TickToT1(t)
  }

  /** `tick_cpu`: one tick, then ticks until the phase is T1 again. */
  function TickCpu(n: System): (r: Outcome<System>)
    ensures r.Ok? ==> r.value.cycle == Nes.T1
  {
    var t :- Tick(n);
    TickToT1(t)
  }
}

/** What the older console's address decoder and clock promise. */
module OldSystemProps {
  import opened Common
  import Cpu6502
  import Ppu
  import OldPpu
  import Cartridges
  import Nes
  import opened OldSystem

  /** Below $2000 every address reads the RAM byte at its offset mod 2 KB,
      and the read changes nothing. */
  lemma RamMirror(n: System, a: bv16)
    requires a < 0x2000
    ensures CpuRead(n, a) == Ok(Loaded(n.ram[a as int % Nes.RamSize], n))
  {
  }

  /** A RAM write is seen through all four mirrors of its cell and through
      no other address below $2000. */
  lemma RamRoundTrip(n: System, a: bv16, b: bv16, v: bv8)
    requires a < 0x2000 && b < 0x2000
    ensures CpuWrite(n, a, v).Ok?
    ensures var w := CpuWrite(n, a, v).value;
            && w == n.(ram := w.ram)
            && CpuRead(w, b) == Ok(Loaded(if a as int % Nes.RamSize == b as int % Nes.RamSize then v
                                          else n.ram[b as int % Nes.RamSize], w))
  {
    var w := StoreRam(n, Nes.RamIndex(a as int), v);
    assert CpuWrite(n, a, v) == Ok(w);
    RamMirror(w, b);
  }

  /** Two addresses of $2000-$3FFF that agree mod 8 are the same PPU
      register, for reads and for writes. */
  lemma PpuRegisterMirror(n: System, a: bv16, b: bv16, v: bv8)
    requires 0x2000 <= a <= 0x3FFF && 0x2000 <= b <= 0x3FFF && a as int % 8 == b as int % 8
    ensures CpuRead(n, a) == CpuRead(n, b)
    ensures CpuWrite(n, a, v) == CpuWrite(n, b, v)
  {
    var reg := Nes.PpuReg(a as int);
    assert Nes.PpuReg(b as int) == reg;
    assert CpuRead(n, a) == ReadPpuReg(n, reg) == CpuRead(n, b);
    assert CpuWrite(n, a, v) == WritePpuReg(n, reg, v) == CpuWrite(n, b, v);
  }

  /** $4000-$4017 (the APU and the controller ports, which the older
      console does not connect) reads 0 and ignores writes; $4018-$401F
      aborts on every access. */
  lemma UnconnectedRanges(n: System, a: bv16, v: bv8)
    requires 0x4000 <= a <= 0x401F
    ensures a <= 0x4017 ==> CpuRead(n, a) == Ok(Loaded(0, n)) && CpuWrite(n, a, v) == Ok(n)
    ensures 0x4018 <= a ==> CpuRead(n, a).Panic? && CpuWrite(n, a, v).Panic?
  {
  }

  /** $4020 and above belongs to the cartridge, for reads and writes. */
  lemma CartridgeSpace(n: System, a: bv16, v: bv8)
    requires 0x4020 <= a
    ensures CpuRead(n, a) == ReadCart(n, a as int)
    ensures CpuWrite(n, a, v) == WriteCart(n, a as int, v)
    ensures CpuRead(n, a).Ok? <==> Cartridges.ReadCpu(n.cart, a as int).Ok?
    ensures CpuRead(n, a).Ok? ==> CpuRead(n, a).value == Loaded(Cartridges.ReadCpu(n.cart, a as int).value, n)
    ensures CpuWrite(n, a, v).Ok? <==> Cartridges.WriteCpu(n.cart, a as int, v).Ok?
    ensures CpuWrite(n, a, v).Ok? ==> CpuWrite(n, a, v).value == n.(cart := Cartridges.WriteCpu(n.cart, a as int, v).value)
  {
    assert CpuRead(n, a) == ReadCart(n, a as int);
    assert CpuWrite(n, a, v) == WriteCart(n, a as int, v);
  }

  /** In T1 and T2 a tick is a PPU dot alone: the CPU does not run, and
      the PPU can touch it only by raising its NMI line. */
  lemma CpuOnlyInT3(n: System)
    requires n.cycle != Nes.T3
    ensures var r := Tick(n);
            r.Ok? ==> PpuDot(n).Ok? && r.value == PpuDot(n).value.(cycle := Nes.NextPhase(n.cycle))
                      && (r.value.cpu == n.cpu || r.value.cpu == Cpu6502.SetNmi(n.cpu))
                      && r.value.ram == n.ram
  {
    var s := OldPpu.Tick(n.ppu, Host(n));
    PerformOnlyRaisesNmi(n.(ppu := s.ppu), s.effects);
  }

  /** In T3 the PPU dot comes first and the CPU cycle sees its result. */
  lemma PpuBeforeCpu(n: System)
    requires n.cycle == Nes.T3
    ensures var r := Tick(n);
            r.Ok? <==> PpuDot(n).Ok? && CpuTick(PpuDot(n).value).Ok?
    ensures var r := Tick(n);
            r.Ok? ==> r.value == CpuTick(PpuDot(n).value).value.(cycle := Nes.T1)
  {
  }

  /** The tick on which VBLANK starts cannot abort in its PPU dot: the dot
      raises VBLANK and, when PPUCTRL enables it, the CPU's NMI line. */
  lemma VblankDot(n: System)
    requires n.ppu.timing.scanline == 241 && n.ppu.timing.dot == 1
    ensures PpuDot(n).Ok?
    ensures var d := PpuDot(n).value;
            && d.ppu.regs.status == n.ppu.regs.status | Ppu.StatusVblank
            && d.cpu == if n.ppu.regs.ctrl & Ppu.CtrlNmi == Ppu.CtrlNmi then Cpu6502.SetNmi(n.cpu) else n.cpu
  {
    var s := OldPpu.Tick(n.ppu, Host(n));
    OldPpu.TickSetsVblank(n.ppu, Host(n));
    var m := n.(ppu := s.ppu);
    if n.ppu.regs.ctrl & Ppu.CtrlNmi == Ppu.CtrlNmi {
      assert PerformAll(m, s.effects) == Ok(m.(cpu := Cpu6502.SetNmi(n.cpu)));
    } else {
      assert PerformAll(m, s.effects) == Ok(m);
    }
  }

  /** Off an opcode fetch a CPU cycle never stops the CPU. */
  lemma StepContinues(c: Cpu6502.Cpu, data: bv8, nmiAfter: Cpu6502.Line)
    requires c.state != Cpu6502.FetchOpcode
    ensures Cpu6502.Step(c, data, nmiAfter).Continue?
  {
  }

  /** A CPU cycle that reads $2002 completes, returns the status byte and
      leaves the PPU as the status read leaves it. */
  lemma StatusReadCycle(d: System)
    requires d.cpu.state.ExecuteOnAddress? && Cpu6502.Request(d.cpu) == Cpu6502.ReadAt(0x2002)
    ensures CpuTick(d).Ok?
    ensures CpuTick(d).value.ppu == OldPpu.ReadStatus(d.ppu).ppu
  {
    var rr := OldPpu.ReadStatus(d.ppu);
    var l := Loaded(rr.value, d.(ppu := rr.ppu));
    StatusRead(d);
    StepContinues(d.cpu, l.value, l.nes.cpu.nmi);
  }

  /** A CPU read of $2002 is the PPU's status read and nothing else. */
  lemma StatusRead(d: System)
    ensures CpuRead(d, 0x2002) == Ok(Loaded(OldPpu.ReadStatus(d.ppu).value, d.(ppu := OldPpu.ReadStatus(d.ppu).ppu)))
  {
    assert ReadPpuReg(d, 2) == Ok(Loaded(OldPpu.ReadStatus(d.ppu).value, d.(ppu := OldPpu.ReadStatus(d.ppu).ppu)));
  }

  /** The status byte read while VBLANK is up has bit 7 set, and the read
      leaves VBLANK down. */
  lemma VblankBits(status: bv8, value: bv8)
    requires value & 0xE0 == status | Ppu.StatusVblank
    ensures value & Ppu.StatusVblank == Ppu.StatusVblank
    ensures (status | Ppu.StatusVblank) & 0x60 & Ppu.StatusVblank == 0
  {
  }

  /** A CPU cycle that reads $2002 while VBLANK is up completes with the
      status byte's bit 7 in the open-bus latch and VBLANK down. */
  lemma StatusReadClearsVblank(d: System, status: bv8)
    requires d.ppu.regs.status == status | Ppu.StatusVblank
    requires d.cpu.state.ExecuteOnAddress? && Cpu6502.Request(d.cpu) == Cpu6502.ReadAt(0x2002)
    ensures CpuTick(d).Ok?
    ensures CpuTick(d).value.ppu.regs.lastRead & Ppu.StatusVblank == Ppu.StatusVblank
    ensures CpuTick(d).value.ppu.regs.status & Ppu.StatusVblank == 0
  {
    StatusReadCycle(d);
    var rr := OldPpu.ReadStatus(d.ppu);
    VblankBits(status, rr.value);
  }

  /** Raising the NMI line does not move a CPU that is inside an
      instruction: its next bus access is the same. */
  lemma NmiKeepsAccess(c: Cpu6502.Cpu)
    requires c.state.ExecuteOnAddress?
    ensures Cpu6502.Request(Cpu6502.SetNmi(c)) == Cpu6502.Request(c)
    ensures Cpu6502.SetNmi(c).state == c.state
  {
  }

  /** Hence a CPU read of $2002 in the T3 of the tick on which VBLANK
      starts already returns VBLANK set, and clears it again: the CPU
      cycle of that tick (which `PpuBeforeCpu` places after the dot)
      completes with the status byte's bit 7 in the open-bus latch and
      VBLANK down. */
  lemma StatusReadSeesSameDot(n: System)
    requires n.cycle == Nes.T3 && n.ppu.timing.scanline == 241 && n.ppu.timing.dot == 1
    requires n.cpu.state.ExecuteOnAddress? && Cpu6502.Request(n.cpu) == Cpu6502.ReadAt(0x2002)
    ensures PpuDot(n).Ok? && CpuTick(PpuDot(n).value).Ok?
    ensures var r := CpuTick(PpuDot(n).value).value;
            && r.ppu.regs.lastRead & Ppu.StatusVblank == Ppu.StatusVblank
            && r.ppu.regs.status & Ppu.StatusVblank == 0
  {
    VblankDot(n);
    NmiKeepsAccess(n.cpu);
    StatusReadClearsVblank(PpuDot(n).value, n.ppu.regs.status);
  }

  /** Ticking back to T1 takes exactly as many ticks as the phase is away
      from it. */
  lemma {:induction false} TickToT1Counts(n: System)
    ensures TickToT1(n) == Ticks(n, Nes.ToT1(n.cycle))
    decreases Nes.ToT1(n.cycle)
  {
    if n.cycle != Nes.T1 {
      var t := Tick(n);
      if t.Ok? {
        TickToT1Counts(t.value);
      }
    }
  }

  /** `tick_cpu` from T1 is exactly three ticks: three PPU dots for one
      CPU cycle. */
  lemma TickCpuCounts(n: System)
    ensures TickCpu(n) == Ticks(n, 1 + Nes.ToT1(Nes.NextPhase(n.cycle)))
    ensures n.cycle == Nes.T1 ==> TickCpu(n) == Ticks(n, 3)
  {
    var t := Tick(n);
    if t.Ok? {
      TickToT1Counts(t.value);
    }
  }
}
