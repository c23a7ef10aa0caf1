/** The older, background-only PPU (covnes/src/ppu.rs). It shares the
    loopy scroll logic, the register encodings and the background shift
    registers with the current PPU, and differs from it in what it leaves
    out: no sprites, no sprite-0 hit, no palette mirroring of $3F10, no
    attribute masking on $2004 reads, no delayed VBLANK clear and no NMI
    race handling. Its frame counters are the current PPU's `Timing` with
    the skip never armed in advance: the older PPU decides the odd-frame
    skip on dot 339 itself. */
module OldPpu {
  import opened Common
  import opened PpuScroll
  import Ppu
  import PpuRender
  import PpuTick

  datatype State = State(
    cgram: seq<bv8>, oam: seq<bv8>, timing: Ppu.Timing, regs: Ppu.Regs, scroll: Ppu.Scroll, bg: Ppu.Background)

  /** What every reachable older PPU satisfies: the memories have their
      sizes, the counters their ranges, the status register only its
      three flags, and the fields the older PPU does not have (the armed
      skip and the pending VBLANK clear) stay off. */
  predicate Valid(p: State) {
    && |p.cgram| == 32 && |p.oam| == 256
    && Ppu.TimingValid(p.timing) && !p.timing.performSkip
    && Ppu.RegsValid(p.regs) && !p.regs.clearVblank
    && Ppu.ScrollValid(p.scroll)
  }

  predicate IsAtFrameEnd(p: State) {
    p.timing.dot == 0 && p.timing.scanline == 0
  }

  function PowerOn(): (p: State)
    ensures Valid(p) && IsAtFrameEnd(p) && !p.timing.oddFrame
    ensures p.regs == Ppu.Regs(0, 0, 0, 0, 0, 0, false) && p.scroll == Ppu.Scroll(0, 0, 0, false)
  {
    State(Ppu.Zeros(32), Ppu.Zeros(256), Ppu.Timing(0, 0, false, false), Ppu.Regs(0, 0, 0, 0, 0, 0, false),
          Ppu.Scroll(0, 0, 0, false), Ppu.Background(0, 0, 0, 0, 0, 0, 0, 0, 0, 0, 0))
  }

  /** Reset clears PPUCTRL, PPUMASK, the counters and the frame parity and
      keeps everything else. */
  function Reset(p: State): (r: State)
    requires Valid(p)
    ensures Valid(r) && IsAtFrameEnd(r) && !r.timing.oddFrame
    ensures r.regs == p.regs.(ctrl := 0, mask := 0)
    ensures r.(regs := p.regs, timing := p.timing) == p
  {
    p.(regs := p.regs.(ctrl := 0, mask := 0), timing := Ppu.Timing(0, 0, false, false))
  }

  // ---------------------------------------------------------------------
  // The PPU's own memory accesses

  /** The PPU after an action, and the effects of the action. */
  datatype Stepped = Stepped(ppu: State, effects: seq<Ppu.Effect>)

  /** The PPU's own read: palette RAM (address minus $3F00, mod 32) for
      $3F00-$3FFF and its mirrors, the host otherwise, at the address as
      given. */
  function Read(p: State, host: bv16 -> bv8, addr: bv16): (r: Ppu.Fetched)
    requires |p.cgram| == 32
    ensures addr % 0x4000 < 0x3F00 ==> r == Ppu.Fetched(host(addr), [Ppu.HostRead(addr)])
    ensures addr % 0x4000 >= 0x3F00 ==>
              r.effects == [] && r.value == Ppu.Grey(p.regs.mask, p.cgram[(addr % 0x4000 - 0x3F00) % 32])
  {
    if addr % 0x4000 < 0x3F00 then Ppu.Fetched(host(addr), [Ppu.HostRead(addr)])
    else Ppu.Fetched(Ppu.Grey(p.regs.mask, p.cgram[Ppu.PaletteOffset(addr)]), [])
  }

  /** The PPU's own write, routed as `Read` routes reads. */
  function Write(p: State, addr: bv16, value: bv8): (r: Stepped)
    requires |p.cgram| == 32
    ensures |r.ppu.cgram| == 32
    ensures addr % 0x4000 < 0x3F00 ==> r == Stepped(p, [Ppu.HostWrite(addr, value)])
    ensures addr % 0x4000 >= 0x3F00 ==>
              r.effects == [] && r.ppu == p.(cgram := p.cgram[(addr % 0x4000 - 0x3F00) % 32 := value])
  {
    if addr % 0x4000 < 0x3F00 then Stepped(p, [Ppu.HostWrite(addr, value)])
    else Stepped(p.(cgram := p.cgram[Ppu.PaletteOffset(addr) := value]), [])
  }

  /** A palette write is read back at every address of the same entry
      (through greyscale when it is on). */
  lemma PaletteRoundTrip(p: State, a: bv16, b: bv16, value: bv8, host: bv16 -> bv8)
    requires |p.cgram| == 32 && a % 0x4000 >= 0x3F00 && b % 0x4000 >= 0x3F00
    requires (a % 0x4000) % 32 == (b % 0x4000) % 32
    ensures Read(Write(p, a, value).ppu, host, b) == Ppu.Fetched(Ppu.Grey(p.regs.mask, value), [])
  {
  }

  /** A palette write leaves the other 31 entries alone. */
  lemma PaletteWriteLocal(p: State, a: bv16, b: bv16, value: bv8, host: bv16 -> bv8)
    requires |p.cgram| == 32 && a % 0x4000 >= 0x3F00 && b % 0x4000 >= 0x3F00
    requires (a % 0x4000) % 32 != (b % 0x4000) % 32
    ensures Read(Write(p, a, value).ppu, host, b) == Read(p, host, b)
  {
  }

  /** Unlike the current PPU (`Ppu.PaletteAliases`), the sprite backdrop
      entries $3F10/$3F14/$3F18/$3F1C are cells of their own: writing one
      leaves the background entry below it as it was. */
  lemma PaletteNoAliasing(p: State, k: bv16, value: bv8, host: bv16 -> bv8)
    requires |p.cgram| == 32 && k < 4
    ensures Read(Write(p, 0x3F10 + 4 * k, value).ppu, host, 0x3F00 + 4 * k) == Read(p, host, 0x3F00 + 4 * k)
    ensures Read(Write(p, 0x3F10 + 4 * k, value).ppu, host, 0x3F10 + 4 * k) == Ppu.Fetched(Ppu.Grey(p.regs.mask, value), [])
  {
  }

  // ---------------------------------------------------------------------
  // CPU writes to the registers

  /** $2000 raises NMI at once exactly when it turns NMI on while VBLANK is
      set. */
  predicate CtrlTriggersNmi(regs: Ppu.Regs, value: bv8) {
    regs.ctrl & Ppu.CtrlNmi == 0 && value & Ppu.CtrlNmi != 0 && regs.status & Ppu.StatusVblank != 0
  }

  /** $2000: PPUCTRL takes the value and `t` its nametable select. */
  function WriteCtrl(p: State, value: bv8): (r: Stepped)
    requires Valid(p)
    ensures Valid(r.ppu)
    ensures r.ppu == p.(regs := p.regs.(ctrl := value), scroll := p.scroll.(t := Ppu.CtrlT(p.scroll.t, value)))
    ensures Ppu.TriggerNmi in r.effects <==> CtrlTriggersNmi(p.regs, value)
    ensures |r.effects| <= 1 && forall e :: e in r.effects ==> e == Ppu.TriggerNmi
  {
    Stepped(p.(regs := p.regs.(ctrl := value), scroll := p.scroll.(t := Ppu.CtrlT(p.scroll.t, value))),
            if CtrlTriggersNmi(p.regs, value) then [Ppu.TriggerNmi] else [])
  }

  /** $2004: store at OAMADDR and advance it, wrapping after $FF; the older
      PPU does so whatever it is drawing. */
  function WriteOamData(p: State, value: bv8): (r: State)
    requires Valid(p)
    ensures Valid(r) && r.oam[p.regs.oamAddr as nat] == value
    ensures forall i :: 0 <= i < 256 && i != p.regs.oamAddr as nat ==> r.oam[i] == p.oam[i]
    ensures r.regs == p.regs.(oamAddr := p.regs.oamAddr + 1)
    ensures r.(oam := p.oam, regs := p.regs) == p
  {
    p.(oam := p.oam[p.regs.oamAddr as nat := value], regs := p.regs.(oamAddr := p.regs.oamAddr + 1))
  }

  /** $2007: write at `v` (host or palette), then step `v` by the VRAM
      increment within 15 bits. */
  function WriteData(p: State, value: bv8): (r: Stepped)
    requires Valid(p)
    ensures Valid(r.ppu)
    ensures r.ppu.scroll == p.scroll.(v := Ppu.NextV(p.scroll.v, p.regs.ctrl))
    ensures r.ppu.(scroll := p.scroll) == Write(p, p.scroll.v, value).ppu
    ensures r.effects == Write(p, p.scroll.v, value).effects
  {
    var written := Write(p, p.scroll.v, value);
    Stepped(written.ppu.(scroll := p.scroll.(v := Ppu.NextV(p.scroll.v, p.regs.ctrl))), written.effects)
  }

  /** A CPU write to PPU register `reg` (the address mod 8). Every write,
      to any register, first lands on the open-bus latch; registers 2 and
      beyond 7 take nothing else. */
  function RegWrite(p: State, reg: bv8, value: bv8): (r: Stepped)
    requires Valid(p)
    ensures Valid(r.ppu) && r.ppu.regs.lastRead == value
    ensures reg == 1 ==> r == Stepped(p.(regs := p.regs.(lastRead := value, mask := value)), [])
    ensures reg == 3 ==> r == Stepped(p.(regs := p.regs.(lastRead := value, oamAddr := value)), [])
    ensures reg == 5 ==> r == Stepped(p.(regs := p.regs.(lastRead := value), scroll := Ppu.WriteScroll(p.scroll, value)), [])
    ensures reg == 6 ==> r == Stepped(p.(regs := p.regs.(lastRead := value), scroll := Ppu.WriteAddr(p.scroll, value)), [])
    ensures reg == 2 || reg > 7 ==> r == Stepped(p.(regs := p.regs.(lastRead := value)), [])
  {
    var p := p.(regs := p.regs.(lastRead := value));
    if reg == 0 then WriteCtrl(p, value)
    else if reg == 1 then Stepped(p.(regs := p.regs.(mask := value)), [])
    else if reg == 3 then Stepped(p.(regs := p.regs.(oamAddr := value)), [])
    else if reg == 4 then Stepped(WriteOamData(p, value), [])
    else if reg == 5 then Stepped(p.(scroll := Ppu.WriteScroll(p.scroll, value)), [])
    else if reg == 6 then Stepped(p.(scroll := Ppu.WriteAddr(p.scroll, value)), [])
    else if reg == 7 then WriteData(p, value)
    else Stepped(p, [])
  }

  // ---------------------------------------------------------------------
  // CPU reads of the registers

  /** The value a CPU read of PPU register `reg` returns, the PPU after it
      and the effects of the read. */
  datatype RegReadResult = RegReadResult(value: bv8, ppu: State, effects: seq<Ppu.Effect>)

  /** $2002 returns the three flags over the low five bits of the open-bus
      latch; the read lowers VBLANK and the write toggle at once. */
  function ReadStatus(p: State): (r: RegReadResult)
    requires Valid(p)
    ensures Valid(r.ppu) && r.effects == []
    ensures r.value & 0x1F == p.regs.lastRead & 0x1F && r.value & 0xE0 == p.regs.status
    ensures r.ppu.regs.status == p.regs.status & 0x60 && !r.ppu.scroll.w
    ensures r.ppu == p.(regs := p.regs.(status := r.ppu.regs.status, lastRead := r.value), scroll := p.scroll.(w := false))
  {
    var n := Ppu.StatusByte(p.regs);
    RegReadResult(n, p.(regs := p.regs.(status := PpuRender.WithFlag(p.regs.status, Ppu.StatusVblank, false), lastRead := n),
                        scroll := p.scroll.(w := false)), [])
  }

  /** $2004: the OAM byte at OAMADDR, all eight bits. */
  function ReadOamData(p: State): (r: RegReadResult)
    requires Valid(p)
    ensures Valid(r.ppu) && r.effects == []
    ensures r.value == p.oam[p.regs.oamAddr as nat] && r.ppu == p.(regs := p.regs.(lastRead := r.value))
  {
    var b := p.oam[p.regs.oamAddr as nat];
    RegReadResult(b, p.(regs := p.regs.(lastRead := b)), [])
  }

  /** $2007: below the palette the value comes from the read buffer, which
      then takes the byte at `v`; palette reads are immediate (the buffer
      still takes the host byte underneath). `v` is reduced to 14 bits and
      stepped by the VRAM increment. */
  function ReadData(p: State, host: bv16 -> bv8): (r: RegReadResult)
    requires Valid(p)
    ensures Valid(r.ppu) && r.effects == [Ppu.HostRead(p.scroll.v % 0x4000)]
    ensures p.scroll.v % 0x4000 < 0x3F00 ==> r.value == p.regs.readBuffer
    ensures p.scroll.v % 0x4000 >= 0x3F00 ==>
              r.value == Ppu.Grey(p.regs.mask, p.cgram[(p.scroll.v % 0x4000 - 0x3F00) % 32])
    ensures r.ppu == p.(regs := p.regs.(readBuffer := host(p.scroll.v % 0x4000), lastRead := r.value),
                        scroll := p.scroll.(v := Ppu.NextV(p.scroll.v % 0x4000, p.regs.ctrl)))
  {
    var a := p.scroll.v % 0x4000;
    var n := if a < 0x3F00 then p.regs.readBuffer else Read(p, host, a).value;
    RegReadResult(n, p.(regs := p.regs.(readBuffer := host(a), lastRead := n),
                        scroll := p.scroll.(v := Ppu.NextV(a, p.regs.ctrl))), [Ppu.HostRead(a)])
  }

  /** A CPU read of PPU register `reg` (the address mod 8); every other
      register returns the open-bus latch and changes nothing. */
  function RegRead(p: State, host: bv16 -> bv8, reg: bv8): (r: RegReadResult)
    requires Valid(p)
    ensures Valid(r.ppu) && r.value == r.ppu.regs.lastRead
    ensures reg != 2 && reg != 4 && reg != 7 ==> r == RegReadResult(p.regs.lastRead, p, [])
  {
    match reg
    case 2 => ReadStatus(p)
    case 4 => ReadOamData(p)
    case 7 => ReadData(p, host)
    case _ => RegReadResult(p.regs.lastRead, p, [])
  }

  /** Reading $2002 twice: the second read sees VBLANK low and otherwise
      returns what the first returned. */
  lemma StatusReadTwice(p: State)
    requires Valid(p)
    ensures var first := ReadStatus(p);
            ReadStatus(first.ppu).value == first.value & 0x7F
  {
  }

  /** Setting OAMADDR, writing $2004, setting OAMADDR back and reading
      $2004 returns the byte written, all eight bits of it. */
  lemma OamWriteRead(p: State, addr: bv8, value: bv8, host: bv16 -> bv8)
    requires Valid(p)
    ensures var q1 := RegWrite(p, 3, addr).ppu;
            var q2 := RegWrite(q1, 4, value).ppu;
            var q3 := RegWrite(q2, 3, addr).ppu;
            RegRead(q3, host, 4).value == value
  {
    var q1 := RegWrite(p, 3, addr).ppu;
    assert q1.regs.oamAddr == addr;
    var q2 := RegWrite(q1, 4, value).ppu;
    assert q2.oam[addr as nat] == value;
  }

  /** Each $2007 access moves `v` by the increment PPUCTRL selects, one
      byte across or one row down. */
  lemma DataPortIncrement(p: State, value: bv8, host: bv16 -> bv8)
    requires Valid(p)
    ensures RegWrite(p, 7, value).ppu.scroll.v == (p.scroll.v + Ppu.VramIncrement(p.regs.ctrl)) % 0x8000
    ensures RegRead(p, host, 7).ppu.scroll.v == (p.scroll.v % 0x4000 + Ppu.VramIncrement(p.regs.ctrl)) % 0x8000
  {
  }

  // ---------------------------------------------------------------------
  // Drawing and fetching

  /** $2007 reads below the palette lag by one, as on the current PPU: each
      returns the byte at the address of the read before it. A palette read
      returns its entry at once, while the buffer still takes the host byte
      underneath. */
  lemma BufferedRead(p: State, host: bv16 -> bv8)
    requires Valid(p)
    ensures var a := p.scroll.v % 0x4000;
            var r1 := ReadData(p, host);
            && r1.ppu.regs.readBuffer == host(a)
            && (a < 0x3F00 ==> r1.value == p.regs.readBuffer)
            && (a >= 0x3F00 ==> r1.value == Read(p, host, a).value)
            && (r1.ppu.scroll.v % 0x4000 < 0x3F00 ==> ReadData(r1.ppu, host).value == host(a))
  {
  }

  /** Through the older PPU's register port, a $2005 pair from a clear
      toggle sets coarse and fine X and Y and keeps the nametable select
      and `v`; a $2006 pair sets `v` and `t` to the 14-bit address. Either
      pair leaves the toggle clear. */
  lemma ScrollAddrPairs(p: State, x: bv8, y: bv8)
    requires Valid(p) && !p.scroll.w
    ensures var r := RegWrite(RegWrite(p, 5, x).ppu, 5, y).ppu.scroll;
            && CoarseX(r.t) == (x as bv16) >> 3 && r.fineX == x & 7
            && CoarseY(r.t) == (y as bv16) >> 3 && FineY(r.t) == (y as bv16) & 7
            && NtX(r.t) == NtX(p.scroll.t) && NtY(r.t) == NtY(p.scroll.t)
            && r.v == p.scroll.v && !r.w
    ensures var r := RegWrite(RegWrite(p, 6, x).ppu, 6, y).ppu.scroll;
            && r.v == r.t && r.v == (((x as bv16) & 0x3F) << 8) | (y as bv16)
            && r.fineX == p.scroll.fineX && !r.w
  {
    assert RegWrite(p, 5, x).ppu.scroll == Ppu.WriteScroll(p.scroll, x);
    assert RegWrite(p, 6, x).ppu.scroll == Ppu.WriteAddr(p.scroll, x);
    Ppu.ScrollPair(p.scroll, x, y);
    Ppu.AddrPair(p.scroll, x, y);
  }

  /** The palette entry the background shows at the current fine X: the
      backdrop (entry 0) when the background is off. */
  function BgIndex(p: State): (i: bv8)
    requires Valid(p)
    ensures i < 16
    ensures p.regs.mask & Ppu.MaskShowBg != Ppu.MaskShowBg ==> i == 0
    ensures p.regs.mask & Ppu.MaskShowBg == Ppu.MaskShowBg ==> i == PpuRender.BgPalette(p.bg, p.scroll.fineX)
  {
    if p.regs.mask & Ppu.MaskShowBg == Ppu.MaskShowBg then PpuRender.BgPalette(p.bg, p.scroll.fineX) else 0
  }

  /** The pixel stage of a dot: on a visible dot it draws column dot - 2
      in the colour of the background's palette entry (sprites are never
      drawn); on every dot it shifts the background registers. */
  function Pixel(p: State, host: bv16 -> bv8): (r: Stepped)
    requires Valid(p)
    ensures Valid(r.ppu) && r.ppu == p.(bg := PpuRender.Shift(p.bg))
    ensures PpuRender.Visible(p.timing) ==>
              r.effects == [Ppu.SetPixel(p.timing.scanline, p.timing.dot - 2, Ppu.Grey(p.regs.mask, p.cgram[BgIndex(p)]))]
    ensures !PpuRender.Visible(p.timing) ==> r.effects == []
  {
    if PpuRender.Visible(p.timing) then
      var colour := Read(p, host, 0x3F00 + BgIndex(p) as bv16);
      Stepped(p.(bg := PpuRender.Shift(p.bg)), [Ppu.SetPixel(p.timing.scanline, p.timing.dot - 2, colour.value)])
    else
      Stepped(p.(bg := PpuRender.Shift(p.bg)), [])
  }

  /** `reload_bg_shift` as written: the high attribute latch takes `at & 2`,
      which is 0 or 2, not the bit itself. */
  function ReloadAsWritten(b: Ppu.Background): (r: Ppu.Background)
    ensures r.atLatchH == b.at & 2
    ensures r == PpuRender.Reload(b).(atLatchH := b.at & 2)
  {
    b.(lowShift := (b.lowShift & 0xFF00) | (b.low as bv16), highShift := (b.highShift & 0xFF00) | (b.high as bv16),
       atLatchL := b.at & 1, atLatchH := b.at & 2)
  }

  /** With attribute bits 10 the latch as written shifts a 1 into bit 1 of
      the high attribute register instead of bit 0, so a pixel drawn from a
      freshly reloaded tile gets palette 0 instead of palette 2: entry 1
      rather than entry 9. */
  lemma ReloadAsWrittenMisplacesBit()
    ensures var b := Ppu.Background(0, 0, 2, 0x80, 0, 0, 0, 0, 0, 0, 0);
            && PpuRender.Shift(ReloadAsWritten(b)).atShiftH & 1 == 0
            && PpuRender.Shift(PpuRender.Reload(b)).atShiftH & 1 == 1
            && PpuRender.BgPalette(PpuRender.Shift(ReloadAsWritten(b)), 7) == 1
            && PpuRender.BgPalette(PpuRender.Shift(PpuRender.Reload(b)), 7) == 9
  {
  }

  /** Step `dot % 8` of the background fetch cycle on dots 2-255 and
      322-337: nametable byte, attribute byte (reduced to the tile's
      quadrant), low and high pattern bytes, each an address step followed
      by a read; after the high byte coarse X moves on, and at the start
      of the next cycle the shift registers reload. */
  function FetchStep(p: State, host: bv16 -> bv8): (r: Stepped)
    requires Valid(p)
    ensures Valid(r.ppu)
    ensures r.ppu.(bg := p.bg, scroll := p.scroll) == p
    ensures p.timing.dot % 8 != 0 ==> r.ppu.scroll == p.scroll
    ensures p.timing.dot % 8 == 0 ==> r.ppu.scroll == p.scroll.(v := HScroll(Ppu.IsRendering(p.regs.mask), p.scroll.v))
    ensures p.timing.dot % 2 == 1 ==> r.effects == []
    ensures p.timing.dot % 2 == 0 ==> r.effects == Read(p, host, p.bg.fetchAddr).effects
  {
    var b := p.bg;
    var v := p.scroll.v;
    match p.timing.dot % 8
    case 1 => Stepped(p.(bg := PpuRender.Reload(b.(fetchAddr := NtAddr(v)))), [])
    case 2 =>
      var f := Read(p, host, b.fetchAddr);
      Stepped(p.(bg := b.(nt := f.value)), f.effects)
    case 3 => Stepped(p.(bg := b.(fetchAddr := AtAddr(v))), [])
    case 4 =>
      var f := Read(p, host, b.fetchAddr);
      Stepped(p.(bg := b.(at := AttributeQuadrant(f.value, v))), f.effects)
    case 5 => Stepped(p.(bg := b.(fetchAddr := BgAddr(p.regs.ctrl & Ppu.CtrlBgTable1000 == Ppu.CtrlBgTable1000, b.nt, v))), [])
    case 6 =>
      var f := Read(p, host, b.fetchAddr);
      Stepped(p.(bg := b.(low := f.value)), f.effects)
    case 7 => Stepped(p.(bg := b.(fetchAddr := b.fetchAddr + 8)), [])
    case _ =>
      var f := Read(p, host, b.fetchAddr);
      Stepped(p.(bg := b.(high := f.value), scroll := p.scroll.(v := HScroll(Ppu.IsRendering(p.regs.mask), v))), f.effects)
  }

  /** What the background work of a dot may change: the background
      registers and `v`, nothing else; and its effects are host reads and
      pixels only. */
  predicate BackgroundOnly(p: State, r: Stepped) {
    && Valid(r.ppu)
    && r.ppu.(bg := p.bg, scroll := p.scroll) == p
    && r.ppu.scroll.(v := p.scroll.v) == p.scroll
    && forall e :: e in r.effects ==> e.HostRead? || e.SetPixel?
  }

  /** Dots 2-255 and 322-337: the pixel stage, then the fetch step. */
  function PixelAndFetch(p: State, host: bv16 -> bv8): (r: Stepped)
    requires Valid(p)
    ensures BackgroundOnly(p, r)
  {
    var a := Pixel(p, host);
    var b := FetchStep(a.ppu, host);
    Stepped(b.ppu, a.effects + b.effects)
  }

  /** Dot 256: the last pixel stage of the line's fetches, the high
      pattern byte, and the move to the next row of `v`. */
  function LastFetch(p: State, host: bv16 -> bv8): (r: Stepped)
    requires Valid(p)
    ensures BackgroundOnly(p, r)
    ensures r.ppu.scroll.v == VScroll(Ppu.IsRendering(p.regs.mask), p.scroll.v)
  {
    var a := Pixel(p, host);
    var f := Read(a.ppu, host, a.ppu.bg.fetchAddr);
    VScrollKeepsColumn(a.ppu.scroll.v);
    Stepped(a.ppu.(bg := a.ppu.bg.(high := f.value), scroll := a.ppu.scroll.(v := VScroll(Ppu.IsRendering(p.regs.mask), a.ppu.scroll.v))),
            a.effects + f.effects)
  }

  /** Dot 257: the last pixel stage, the shift registers reloaded with the
      first tile of the next line, and the column of `v` copied from `t`. */
  function FirstReload(p: State, host: bv16 -> bv8): (r: Stepped)
    requires Valid(p)
    ensures BackgroundOnly(p, r)
    ensures r.ppu.scroll.v == HUpdate(Ppu.IsRendering(p.regs.mask), p.scroll.v, p.scroll.t)
  {
    var a := Pixel(p, host);
    Stepped(a.ppu.(bg := PpuRender.Reload(a.ppu.bg), scroll := a.ppu.scroll.(v := HUpdate(Ppu.IsRendering(p.regs.mask), a.ppu.scroll.v, a.ppu.scroll.t))),
            a.effects)
  }

  /** The background work of a dot of a rendering line (visible lines and
      the pre-render line 261): pixels on dots 2-257, the fetch cycle, the
      Y increment on dot 256, the column copy on dot 257, the row copy on
      dots 280-304 of line 261 and the dummy nametable reads on dots 338
      and 340. */
  function BackgroundDot(p: State, host: bv16 -> bv8): (r: Stepped)
    requires Valid(p)
    ensures BackgroundOnly(p, r)
  {
    var dot := p.timing.dot;
    if dot == 1 || dot == 321 then Stepped(p.(bg := p.bg.(fetchAddr := NtAddr(p.scroll.v))), [])
    else if 2 <= dot <= 255 || 322 <= dot <= 337 then PixelAndFetch(p, host)
    else if dot == 256 then LastFetch(p, host)
    else if dot == 257 then FirstReload(p, host)
    else if 280 <= dot <= 304 && p.timing.scanline == 261 then
      Stepped(p.(scroll := p.scroll.(v := VUpdate(Ppu.IsRendering(p.regs.mask), p.scroll.v, p.scroll.t))), [])
    else if dot == 338 || dot == 340 then
      Stepped(p, Read(p, host, p.bg.fetchAddr).effects)
    else Stepped(p, [])
  }

  // ---------------------------------------------------------------------
  // The dot clock

  /** The odd-frame skip: on dot 339 of the pre-render line of an odd
      frame with rendering on, the counter jumps to dot 340, which the
      counter step then ends. */
  function Skip(c: Ppu.Timing, rendering: bool): (r: Ppu.Timing)
    requires Ppu.TimingValid(c)
    ensures Ppu.TimingValid(r)
    ensures c.scanline == 261 && c.dot == 339 && rendering && c.oddFrame ==> r == c.(dot := 340)
    ensures !(c.scanline == 261 && c.dot == 339 && rendering && c.oddFrame) ==> r == c
  {
    if c.scanline == 261 && c.dot == 339 && rendering && c.oddFrame then c.(dot := c.dot + 1) else c
  }

  /** Dot 1 of the pre-render line lowers VBLANK before anything else
      happens on it. */
  function PreRenderClear(p: State): (r: State)
    requires Valid(p)
    ensures Valid(r) && r == p.(regs := r.regs)
    ensures p.timing.scanline == 261 && p.timing.dot == 1 ==> r.regs == p.regs.(status := p.regs.status & 0x60)
    ensures !(p.timing.scanline == 261 && p.timing.dot == 1) ==> r == p
  {
    if p.timing.scanline == 261 && p.timing.dot == 1
    then p.(regs := p.regs.(status := PpuRender.WithFlag(p.regs.status, Ppu.StatusVblank, false)))
    else p
  }

  /** The work of a dot of a rendering line (0-239 and 261): VBLANK is
      lowered on dot 1 of line 261, then the background work, then the
      skip check. */
  function RenderLine(p: State, host: bv16 -> bv8): (r: Stepped)
    requires Valid(p)
    ensures Valid(r.ppu)
    ensures r.ppu.timing == Skip(p.timing, Ppu.IsRendering(p.regs.mask))
    ensures r.ppu.regs == PreRenderClear(p).regs
    ensures r.effects == BackgroundDot(PreRenderClear(p), host).effects
  {
    var q := PreRenderClear(p);
    var a := BackgroundDot(q, host);
    assert a.ppu.timing == p.timing && a.ppu.regs == q.regs;
    Stepped(a.ppu.(timing := Skip(a.ppu.timing, Ppu.IsRendering(a.ppu.regs.mask))), a.effects)
  }

  /** Dot 1 of line 241: VBLANK is raised, with an NMI when PPUCTRL asks
      for one. */
  function StartVblank(p: State): (r: Stepped)
    requires Valid(p)
    ensures Valid(r.ppu) && r.ppu == p.(regs := r.ppu.regs) && r.ppu.regs == p.regs.(status := r.ppu.regs.status)
    ensures p.timing.dot == 1 ==>
              && r.ppu.regs.status == p.regs.status | Ppu.StatusVblank
              && r.effects == if p.regs.ctrl & Ppu.CtrlNmi == Ppu.CtrlNmi then [Ppu.TriggerNmi] else []
    ensures p.timing.dot != 1 ==> r == Stepped(p, [])
  {
    if p.timing.dot == 1 then
      Stepped(p.(regs := p.regs.(status := PpuRender.WithFlag(p.regs.status, Ppu.StatusVblank, true))),
              if p.regs.ctrl & Ppu.CtrlNmi == Ppu.CtrlNmi then [Ppu.TriggerNmi] else [])
    else Stepped(p, [])
  }

  /** One PPU dot: the line's work (rendering lines or the start of
      VBLANK; lines 240 and 242-260 are idle), then the counters. */
  function Tick(p: State, host: bv16 -> bv8): (r: Stepped)
    requires Valid(p)
    ensures Valid(r.ppu)
  {
    var a := if p.timing.scanline <= 239 || p.timing.scanline == 261 then RenderLine(p, host)
             else if p.timing.scanline == 241 then StartVblank(p)
             else Stepped(p, []);
    Stepped(a.ppu.(timing := PpuTick.Advance(a.ppu.timing)), a.effects)
  }

  /** Dot 1 of line 241 raises VBLANK, and NMI exactly when PPUCTRL enables
      it. */
  lemma TickSetsVblank(p: State, host: bv16 -> bv8)
    requires Valid(p) && p.timing.scanline == 241 && p.timing.dot == 1
    ensures var r := Tick(p, host);
            && r.ppu.regs.status == p.regs.status | Ppu.StatusVblank
            && r.effects == if p.regs.ctrl & Ppu.CtrlNmi == Ppu.CtrlNmi then [Ppu.TriggerNmi] else []
  {
  }

  /** Dot 1 of the pre-render line lowers VBLANK and keeps the other two
      flags. */
  lemma TickClearsVblank(p: State, host: bv16 -> bv8)
    requires Valid(p) && p.timing.scanline == 261 && p.timing.dot == 1
    ensures Tick(p, host).ppu.regs.status == p.regs.status & 0x60
  {
  }

  /** On every other dot the status register stays as it was, and only
      dot 1 of line 241 raises an NMI. */
  lemma TickKeepsStatus(p: State, host: bv16 -> bv8)
    requires Valid(p) && !(p.timing.scanline == 241 && p.timing.dot == 1)
    requires !(p.timing.scanline == 261 && p.timing.dot == 1)
    ensures Tick(p, host).ppu.regs == p.regs
    ensures Ppu.TriggerNmi !in Tick(p, host).effects
  {
  }

  /** On the pre-render line of an odd frame with rendering on, dot 339 is
      the last of the frame: the next dot is dot 0 of line 0, and the frame
      is even. */
  lemma OddFrameSkip(p: State, host: bv16 -> bv8)
    requires Valid(p) && p.timing.scanline == 261 && p.timing.dot == 339
    requires p.timing.oddFrame && Ppu.IsRendering(p.regs.mask)
    ensures Tick(p, host).ppu.timing == Ppu.Timing(0, 0, false, false)
  {
  }

  /** Everywhere else a dot moves the counters one position on in frame
      order, flipping the parity only after the frame's last dot. */
  lemma TickAdvances(p: State, host: bv16 -> bv8)
    requires Valid(p)
    requires !(p.timing.scanline == 261 && p.timing.dot == 339 && p.timing.oddFrame && Ppu.IsRendering(p.regs.mask))
    ensures var t := Tick(p, host).ppu.timing;
            && PpuTick.Position(t) == (PpuTick.Position(p.timing) + 1) % PpuTick.FrameDots
            && (t.oddFrame != p.timing.oddFrame <==> PpuTick.Position(p.timing) == PpuTick.FrameDots - 1)
  {
    PpuTick.AdvanceVisitsInOrder(p.timing);
  }

  /** The frame ends (dot 0 of line 0 comes next) exactly after the last
      dot of line 261, or after dot 339 when that line skips. */
  lemma FrameEnd(p: State, host: bv16 -> bv8)
    requires Valid(p)
    ensures IsAtFrameEnd(Tick(p, host).ppu) <==>
              p.timing.scanline == 261
              && (p.timing.dot == 340 || (p.timing.dot == 339 && p.timing.oddFrame && Ppu.IsRendering(p.regs.mask)))
  {
    if !(p.timing.scanline == 261 && p.timing.dot == 339 && p.timing.oddFrame && Ppu.IsRendering(p.regs.mask)) {
      TickAdvances(p, host);
    }
  }
}
