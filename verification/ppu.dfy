/** The 2C02 picture processing unit of covnes (covnes/src/nes/ppu.rs): its
    state, the CPU-visible registers $2000-$2007 and the PPU's own view of
    memory (palette RAM inside, everything else through the host). The host
    is a pure read function `host`; what the PPU does to the outside world
    (host writes, NMI line changes, pixels) is returned as a list of effects
    in the order the source performs them. */
module Ppu {
  import opened PpuScroll

  // PPUCTRL bits
  const CtrlVramInc: bv8 := 0x04
  const CtrlSpriteBank1000: bv8 := 0x08
  const CtrlBgTable1000: bv8 := 0x10
  const CtrlLargeSprites: bv8 := 0x20
  const CtrlNmi: bv8 := 0x80

  // PPUMASK bits
  const MaskGreyscale: bv8 := 0x01
  const MaskBgLeftmost: bv8 := 0x02
  const MaskSpriteLeftmost: bv8 := 0x04
  const MaskShowBg: bv8 := 0x08
  const MaskShowSprites: bv8 := 0x10

  // PPUSTATUS bits
  const StatusOverflow: bv8 := 0x20
  const StatusSprite0Hit: bv8 := 0x40
  const StatusVblank: bv8 := 0x80

  // Sprite attribute bits; the others do not exist
  const AttrPriorityBehind: bv8 := 0x20
  const AttrFlipHoriz: bv8 := 0x40
  const AttrFlipVert: bv8 := 0x80
  const AttrDefined: bv8 := 0xE3

  /** What the PPU does to the world outside it. */
  datatype Effect =
    | HostRead(addr: bv16)
    | HostWrite(addr: bv16, value: bv8)
    | TriggerNmi
    | SuppressNmi
    | SetPixel(row: int, col: int, colour: bv8)

  /** One of the eight sprites loaded for the current scanline. */
  datatype Sprite = Sprite(x: bv8, low: bv8, high: bv8, attr: bv8)

  const NoSprite := Sprite(0, 0, 0, 0)

  /** Position in the frame: dot 0-340 of scanline 0-261, the frame parity,
      and whether the odd-frame dot skip is armed. */
  datatype Timing = Timing(scanline: int, dot: int, oddFrame: bool, performSkip: bool)

  /** The CPU-visible registers, the $2007 read buffer, the open-bus latch
      and the pending VBLANK clear of a $2002 read. */
  datatype Regs = Regs(ctrl: bv8, mask: bv8, status: bv8, oamAddr: bv8, readBuffer: bv8, lastRead: bv8,
                       clearVblank: bool)

  /** The loopy registers: current and temporary VRAM address, fine X and
      the write toggle. */
  datatype Scroll = Scroll(v: bv16, t: bv16, fineX: bv8, w: bool)

  /** Background fetch latches and shift registers. */
  datatype Background = Background(
    fetchAddr: bv16, nt: bv8, at: bv8, low: bv8, high: bv8, atLatchL: bv8, atLatchH: bv8,
    highShift: bv16, lowShift: bv16, atShiftL: bv8, atShiftH: bv8)

  /** Sprite evaluation: next free secondary OAM byte, the OAM byte latched on
      the odd dot, and the evaluation flags. */
  datatype Evaluation = Evaluation(secondaryAddr: nat, latch: bv8, inRange: bool, done: bool, zeroNext: bool)

  /** The sprites loaded for the line being drawn. */
  datatype SpriteLine = SpriteLine(sprites: seq<Sprite>, zeroCurrent: bool, count: nat)

  datatype Ppu = Ppu(
    cgram: seq<bv8>, oam: seq<bv8>, secondaryOam: seq<bv8>,
    timing: Timing, regs: Regs, scroll: Scroll, bg: Background, eval: Evaluation, line: SpriteLine)

  predicate TimingValid(c: Timing) {
    0 <= c.dot <= 340 && 0 <= c.scanline <= 261
  }

  predicate ScrollValid(s: Scroll) {
    Addr15(s.v) && Addr15(s.t) && s.fineX < 8
  }

  /** PPUSTATUS holds only its three flags. */
  predicate RegsValid(r: Regs) {
    r.status & 0x1F == 0
  }

  predicate LineValid(l: SpriteLine) {
    |l.sprites| == 8 && l.count <= 8
  }

  /** What every reachable PPU satisfies: the memories have their sizes,
      the counters their ranges, the addresses 15 bits, fine X 3 bits, the
      status register only its three flags, at most 8 sprites, and the
      secondary OAM pointer at most one past its 32 bytes. */
  predicate Valid(p: Ppu) {
    && |p.cgram| == 32 && |p.oam| == 256 && |p.secondaryOam| == 32
    && TimingValid(p.timing) && RegsValid(p.regs) && ScrollValid(p.scroll) && LineValid(p.line)
    && p.eval.secondaryAddr <= 0x20
  }

  function Zeros(n: nat): (s: seq<bv8>)
    ensures |s| == n && forall i :: 0 <= i < n ==> s[i] == 0
  {
    seq(n, _ => 0)
  }

  function PowerOn(): (p: Ppu)
    ensures Valid(p) && p.timing == Timing(0, 0, false, false) && p.scroll == Scroll(0, 0, 0, false)
  {
    Ppu(Zeros(32), Zeros(256), Zeros(32), Timing(0, 0, false, false), Regs(0, 0, 0, 0, 0, 0, false),
        Scroll(0, 0, 0, false), Background(0, 0, 0, 0, 0, 0, 0, 0, 0, 0, 0),
        Evaluation(0, 0, false, false, false), SpriteLine(seq(8, _ => NoSprite), false, 0))
  }

  /** Reset clears PPUCTRL, PPUMASK, the counters and the frame parity and
      keeps everything else. */
  function Reset(p: Ppu): (r: Ppu)
    requires Valid(p)
    ensures Valid(r)
    ensures r.regs == p.regs.(ctrl := 0, mask := 0)
    ensures r.timing == p.timing.(scanline := 0, dot := 0, oddFrame := false)
    ensures r.(regs := p.regs, timing := p.timing) == p
  {
    p.(regs := p.regs.(ctrl := 0, mask := 0), timing := p.timing.(scanline := 0, dot := 0, oddFrame := false))
  }

  predicate IsAtFrameEnd(p: Ppu) {
    p.timing.dot == 1 && p.timing.scanline == 241
  }

  /** Rendering is on when the background or the sprites are shown. */
  predicate IsRendering(mask: bv8) {
    mask & MaskShowBg == MaskShowBg || mask & MaskShowSprites == MaskShowSprites
  }

  /** The scanlines on which OAMDATA writes are ignored while rendering:
      the visible ones and the pre-render line 261. */
  predicate IsRenderingScanline(scanline: int) {
    scanline < 240 || scanline == 261
  }

  /** The scanline test as written, comparing with 321, a value the
      scanline counter (0-261) never takes. */
  predicate IsRenderingScanlineAsWritten(scanline: int) {
    scanline < 240 || scanline == 321
  }

  /** The test as written forgets the pre-render line: on scanline 261 it
      lets an OAMDATA write through while rendering, which the corrected
      test refuses. */
  lemma RenderingScanlineAsWrittenMissesPreRender(c: Timing)
    requires TimingValid(c)
    ensures IsRenderingScanlineAsWritten(c.scanline) <==> c.scanline < 240
    ensures c.scanline == 261 ==> IsRenderingScanline(c.scanline) && !IsRenderingScanlineAsWritten(c.scanline)
  {
  }

  /** The corrected test holds exactly on the lines whose rendering uses
      OAM. */
  lemma RenderingScanlines(c: Timing)
    requires TimingValid(c)
    ensures IsRenderingScanline(c.scanline) <==> !(240 <= c.scanline <= 260)
  {
  }

  /** Palette RAM index of palette offset `idx` (0-31): the sprite
      backdrop entries $10/$14/$18/$1C alias the background ones. */
  function CgramMirrorIdx(idx: bv16): (i: nat)
    requires idx < 32
    ensures i < 32 && i % 4 == idx as nat % 4
    ensures idx as nat % 4 == 0 ==> i == idx as nat % 16
    ensures idx as nat % 4 != 0 ==> i == idx as nat
  {
    if idx == 0x10 || idx == 0x14 || idx == 0x18 || idx == 0x1C then idx as nat - 0x10 else idx as nat
  }

  /** The palette offset of a PPU address in $3F00-$3FFF (and its mirrors
      above $4000): the address mod 32. */
  function PaletteOffset(addr: bv16): (idx: bv16)
    requires addr % 0x4000 >= 0x3F00
    ensures idx < 32 && idx == (addr % 0x4000 - 0x3F00) % 32
  {
    (addr - 0x3F00) % 32
  }

  /** A value read and the effects of reading it. */
  datatype Fetched = Fetched(value: bv8, effects: seq<Effect>)

  /** Greyscale keeps only the grey column of the palette. */
  function Grey(mask: bv8, c: bv8): bv8 {
    if mask & MaskGreyscale == MaskGreyscale then c & 0x30 else c
  }

  /** The PPU's own read: palette RAM for $3F00-$3FFF, the host otherwise,
      at the address as given. */
  function Read(p: Ppu, host: bv16 -> bv8, addr: bv16): (r: Fetched)
    requires |p.cgram| == 32
    ensures addr % 0x4000 < 0x3F00 ==> r == Fetched(host(addr), [HostRead(addr)])
    ensures addr % 0x4000 >= 0x3F00 ==>
              r == Fetched(Grey(p.regs.mask, p.cgram[CgramMirrorIdx(PaletteOffset(addr))]), [])
  {
    if addr % 0x4000 < 0x3F00 then Fetched(host(addr), [HostRead(addr)])
    else Fetched(Grey(p.regs.mask, p.cgram[CgramMirrorIdx(PaletteOffset(addr))]), [])
  }

  /** The PPU after an action, and the effects of the action. */
  datatype Stepped = Stepped(ppu: Ppu, effects: seq<Effect>)

  /** The PPU's own write: palette RAM for $3F00-$3FFF, the host otherwise,
      at the address as given. */
  function Write(p: Ppu, addr: bv16, value: bv8): (r: Stepped)
    requires |p.cgram| == 32
    ensures |r.ppu.cgram| == 32
    ensures addr % 0x4000 < 0x3F00 ==> r == Stepped(p, [HostWrite(addr, value)])
    ensures addr % 0x4000 >= 0x3F00 ==>
              r == Stepped(p.(cgram := p.cgram[CgramMirrorIdx(PaletteOffset(addr)) := value]), [])
  {
    if addr % 0x4000 < 0x3F00 then Stepped(p, [HostWrite(addr, value)])
    else Stepped(p.(cgram := p.cgram[CgramMirrorIdx(PaletteOffset(addr)) := value]), [])
  }

  /** A palette write reads back at every address of the same entry; with
      greyscale on only its grey column does. */
  lemma PaletteRoundTrip(p: Ppu, a: bv16, b: bv16, value: bv8, host: bv16 -> bv8)
    requires |p.cgram| == 32 && a % 0x4000 >= 0x3F00 && b % 0x4000 >= 0x3F00
    requires CgramMirrorIdx(PaletteOffset(a)) == CgramMirrorIdx(PaletteOffset(b))
    ensures Read(Write(p, a, value).ppu, host, b) == Fetched(Grey(p.regs.mask, value), [])
  {
  }

  /** A palette write leaves every other entry as it was. */
  lemma PaletteWriteLocal(p: Ppu, a: bv16, b: bv16, value: bv8, host: bv16 -> bv8)
    requires |p.cgram| == 32 && a % 0x4000 >= 0x3F00 && b % 0x4000 >= 0x3F00
    requires CgramMirrorIdx(PaletteOffset(a)) != CgramMirrorIdx(PaletteOffset(b))
    ensures Read(Write(p, a, value).ppu, host, b) == Read(p, host, b)
  {
  }

  /** $3F10/$3F14/$3F18/$3F1C are the same cells as $3F00/$3F04/$3F08/$3F0C,
      for reads and for writes. */
  lemma PaletteAliases(p: Ppu, k: bv16, value: bv8, host: bv16 -> bv8)
    requires |p.cgram| == 32 && k < 4
    ensures Read(p, host, 0x3F10 + 4 * k) == Read(p, host, 0x3F00 + 4 * k)
    ensures Write(p, 0x3F10 + 4 * k, value) == Write(p, 0x3F00 + 4 * k, value)
  {
  }

  /** The VRAM address increment of $2007 accesses: 32 (one row down) with
      PPUCTRL bit 2, else 1. */
  function VramIncrement(ctrl: bv8): (inc: bv16)
    ensures inc == 1 || inc == 32
    ensures inc == 32 <==> ctrl & CtrlVramInc == CtrlVramInc
  {
    if ctrl & CtrlVramInc == CtrlVramInc then 32 else 1
  }

  /** $2000 raises NMI at once when it enables NMI inside vblank, except on
      the dot that clears vblank. */
  predicate CtrlTriggersNmi(regs: Regs, c: Timing, value: bv8) {
    regs.ctrl & CtrlNmi == 0 && value & CtrlNmi != 0 && regs.status & StatusVblank != 0
    && !(c.scanline == 261 && c.dot == 1)
  }

  /** $2000 withdraws the NMI just raised when it disables NMI on dots 2-3
      of line 241. */
  predicate CtrlSuppressesNmi(regs: Regs, c: Timing, value: bv8) {
    regs.ctrl & CtrlNmi != 0 && value & CtrlNmi == 0 && c.scanline == 241 && (c.dot == 2 || c.dot == 3)
  }

  /** $2000 puts bits 0-1 of the value into the nametable select of `t`
      (bits 10-11) and clears bit 15. */
  function CtrlT(t: bv16, value: bv8): (r: bv16)
    requires Addr15(t)
    ensures Addr15(r)
  {
    (t & 0x73FF) | (((value as bv16) & 3) << 10)
  }

  lemma CtrlTFields(t: bv16, value: bv8)
    requires Addr15(t)
    ensures var r := CtrlT(t, value);
            r & 0xF3FF == t & 0xF3FF && (r >> 10) & 3 == (value as bv16) & 3
  {
  }

  /** The NMI effects of a $2000 write, in the order the source makes them. */
  function CtrlEffects(regs: Regs, c: Timing, value: bv8): (e: seq<Effect>)
    ensures TriggerNmi in e <==> CtrlTriggersNmi(regs, c, value)
    ensures SuppressNmi in e <==> CtrlSuppressesNmi(regs, c, value)
    ensures |e| <= 1
  {
    if CtrlTriggersNmi(regs, c, value) then [TriggerNmi]
    else if CtrlSuppressesNmi(regs, c, value) then [SuppressNmi]
    else []
  }

  /** $2000: PPUCTRL takes the value and `t` its nametable select. */
  function WriteCtrl(p: Ppu, value: bv8): (r: Stepped)
    requires Valid(p)
    ensures Valid(r.ppu)
    ensures r.ppu == p.(regs := p.regs.(ctrl := value), scroll := p.scroll.(t := CtrlT(p.scroll.t, value)))
    ensures r.effects == CtrlEffects(p.regs, p.timing, value)
  {
    var scroll := p.scroll.(t := CtrlT(p.scroll.t, value));
    assert ScrollValid(scroll);
    Stepped(p.(regs := p.regs.(ctrl := value), scroll := scroll), CtrlEffects(p.regs, p.timing, value))
  }

  /** At most one of the two NMI effects of a $2000 write happens. */
  lemma CtrlNmiEffectsExclusive(regs: Regs, c: Timing, value: bv8)
    ensures !(CtrlTriggersNmi(regs, c, value) && CtrlSuppressesNmi(regs, c, value))
  {
  }

  /** OAM index of an 8-bit OAM address. */
  function OamIndex(a: bv8): (i: nat)
    ensures i < 256
  {
    a as nat
  }

  /** $2004: store at OAMADDR and advance it (wrapping), unless rendering
      is on during a rendering scanline, when the write is dropped. */
  function WriteOamData(p: Ppu, value: bv8): (r: Ppu)
    requires Valid(p)
    ensures Valid(r)
    ensures !(IsRendering(p.regs.mask) && IsRenderingScanline(p.timing.scanline)) ==>
      r == p.(oam := p.oam[OamIndex(p.regs.oamAddr) := value], regs := p.regs.(oamAddr := p.regs.oamAddr + 1))
    ensures IsRendering(p.regs.mask) && IsRenderingScanline(p.timing.scanline) ==> r == p
  {
    if !(IsRendering(p.regs.mask) && IsRenderingScanline(p.timing.scanline)) then
      p.(oam := p.oam[OamIndex(p.regs.oamAddr) := value], regs := p.regs.(oamAddr := p.regs.oamAddr + 1))
    else p
  }

  /** The first $2005 write of a pair: coarse X into `t`. */
  function ScrollX(t: bv16, value: bv8): (r: bv16)
    requires Addr15(t)
    ensures Addr15(r)
  {
    (t & !0x1F) | ((value as bv16) >> 3)
  }

  /** The second $2005 write of a pair: coarse Y and fine Y into `t`. */
  function ScrollY(t: bv16, value: bv8): (r: bv16)
    requires Addr15(t)
    ensures Addr15(r)
  {
    (t & 0x0C1F) | (((value as bv16) & 7) << 12) | (((value as bv16) & 0xFFF8) << 2)
  }

  lemma ScrollXFields(t: bv16, value: bv8)
    requires Addr15(t)
    ensures var r := ScrollX(t, value);
            CoarseX(r) == (value as bv16) >> 3
            && CoarseY(r) == CoarseY(t) && FineY(r) == FineY(t) && NtX(r) == NtX(t) && NtY(r) == NtY(t)
  {
  }

  lemma ScrollYFields(t: bv16, value: bv8)
    requires Addr15(t)
    ensures var r := ScrollY(t, value);
            CoarseY(r) == (value as bv16) >> 3 && FineY(r) == (value as bv16) & 7
            && CoarseX(r) == CoarseX(t) && NtX(r) == NtX(t) && NtY(r) == NtY(t)
  {
  }

  /** $2005: the first write (w clear) sets the X scroll and fine X, the
      second the Y scroll; each flips w. */
  function WriteScroll(s: Scroll, value: bv8): (r: Scroll)
    requires ScrollValid(s)
    ensures ScrollValid(r) && r.w == !s.w && r.v == s.v
    ensures !s.w ==> r == Scroll(s.v, ScrollX(s.t, value), value & 7, true)
    ensures s.w ==> r == Scroll(s.v, ScrollY(s.t, value), s.fineX, false)
  {
    if s.w then s.(t := ScrollY(s.t, value), w := false)
    else s.(t := ScrollX(s.t, value), fineX := value & 7, w := true)
  }

  /** The first $2006 write of a pair: the high six bits of the address,
      with bit 14 cleared. */
  function AddrHigh(t: bv16, value: bv8): (r: bv16)
    requires Addr15(t)
    ensures Addr15(r) && r & 0xFF == t & 0xFF && r >> 8 == (value as bv16) & 0x3F
  {
    (t & 0xFF) | (((value as bv16) & 0x3F) << 8)
  }

  /** The second $2006 write of a pair: the low byte. */
  function AddrLow(t: bv16, value: bv8): (r: bv16)
    requires Addr15(t)
    ensures Addr15(r) && r >> 8 == t >> 8 && r & 0xFF == value as bv16
  {
    (t & !0xFF) | (value as bv16)
  }

  /** $2006: the first write sets the high byte of `t`, the second its low
      byte and copies `t` into `v`; each flips w. */
  function WriteAddr(s: Scroll, value: bv8): (r: Scroll)
    requires ScrollValid(s)
    ensures ScrollValid(r) && r.w == !s.w && r.fineX == s.fineX
    ensures !s.w ==> r == Scroll(s.v, AddrHigh(s.t, value), s.fineX, true)
    ensures s.w ==> r == Scroll(AddrLow(s.t, value), AddrLow(s.t, value), s.fineX, false)
  {
    if s.w then
      var t := AddrLow(s.t, value);
      s.(t := t, v := t, w := false)
    else s.(t := AddrHigh(s.t, value), w := true)
  }

  /** The 15-bit VRAM address after a $2007 access at `a`. */
  function NextV(a: bv16, ctrl: bv8): (r: bv16)
    ensures Addr15(r)
  {
    (a + VramIncrement(ctrl)) % 0x8000
  }

  /** $2007: write at `v` (host or palette), then step `v` by the VRAM
      increment within 15 bits. */
  function WriteData(p: Ppu, value: bv8): (r: Stepped)
    requires Valid(p)
    ensures Valid(r.ppu)
    ensures r.ppu.scroll == p.scroll.(v := NextV(p.scroll.v, p.regs.ctrl))
    ensures r.ppu.(scroll := p.scroll) == Write(p, p.scroll.v, value).ppu
    ensures r.effects == Write(p, p.scroll.v, value).effects
  {
    var written := Write(p, p.scroll.v, value);
    Stepped(written.ppu.(scroll := p.scroll.(v := NextV(p.scroll.v, p.regs.ctrl))), written.effects)
  }

  /** Every CPU write to a PPU register lands on the open-bus latch. */
  function Latch(p: Ppu, value: bv8): (r: Ppu)
    requires Valid(p)
    ensures Valid(r) && r == p.(regs := p.regs.(lastRead := value))
  {
    p.(regs := p.regs.(lastRead := value))
  }

  /** The registers after a $2001 or $2003 write. */
  function WriteMask(regs: Regs, value: bv8): (r: Regs)
    requires RegsValid(regs)
    ensures RegsValid(r) && r == regs.(mask := value)
  {
    regs.(mask := value)
  }

  function WriteOamAddr(regs: Regs, value: bv8): (r: Regs)
    requires RegsValid(regs)
    ensures RegsValid(r) && r == regs.(oamAddr := value)
  {
    regs.(oamAddr := value)
  }

  /** A CPU write to PPU register `reg` (the address mod 8); registers 2
      and beyond 7 take nothing but the open-bus latch. */
  function RegWrite(p: Ppu, reg: bv8, value: bv8): (r: Stepped)
    requires Valid(p)
    ensures Valid(r.ppu)
    ensures r.ppu.regs.lastRead == value
  {
    var p := Latch(p, value);
    if reg == 0 then WriteCtrl(p, value)
    else if reg == 1 then Stepped(p.(regs := WriteMask(p.regs, value)), [])
    else if reg == 3 then Stepped(p.(regs := WriteOamAddr(p.regs, value)), [])
    else if reg == 4 then Stepped(WriteOamData(p, value), [])
    else if reg == 5 then Stepped(p.(scroll := WriteScroll(p.scroll, value)), [])
    else if reg == 6 then Stepped(p.(scroll := WriteAddr(p.scroll, value)), [])
    else if reg == 7 then WriteData(p, value)
    else Stepped(p, [])
  }

  /** The value a CPU read of PPU register `reg` returns, the PPU after it
      and the effects of the read. */
  datatype RegReadResult = RegReadResult(value: bv8, ppu: Ppu, effects: seq<Effect>)

  /** The byte a $2002 read returns: the three flags over the low five bits
      of the open-bus latch. */
  function StatusByte(regs: Regs): (n: bv8)
    requires RegsValid(regs)
    ensures n & 0x1F == regs.lastRead & 0x1F && n & 0xE0 == regs.status
  {
    (regs.lastRead & 0x1F) | regs.status
  }

  /** $2002 returns `StatusByte`; the read resets w and asks the next tick
      to clear VBLANK; on dots 2-3 of line 241 it also withdraws the NMI
      being raised. */
  function ReadStatus(p: Ppu): (r: RegReadResult)
    requires Valid(p)
    ensures Valid(r.ppu)
    ensures r.value == StatusByte(p.regs)
    ensures r.ppu == p.(regs := p.regs.(clearVblank := true, lastRead := r.value), scroll := p.scroll.(w := false))
    ensures r.effects == (if p.timing.scanline == 241 && (p.timing.dot == 2 || p.timing.dot == 3) then [SuppressNmi] else [])
  {
    var n := StatusByte(p.regs);
    var suppress := if p.timing.scanline == 241 && (p.timing.dot == 2 || p.timing.dot == 3) then [SuppressNmi] else [];
    RegReadResult(n, p.(regs := p.regs.(clearVblank := true, lastRead := n), scroll := p.scroll.(w := false)), suppress)
  }

  /** $2004: the OAM byte at OAMADDR; byte 2 of each sprite (its
      attributes) lacks the three bits that do not exist. */
  function ReadOamData(p: Ppu): (r: RegReadResult)
    requires Valid(p)
    ensures Valid(r.ppu) && r.effects == []
    ensures r.value == p.oam[OamIndex(p.regs.oamAddr)] & (if p.regs.oamAddr & 3 == 2 then AttrDefined else 0xFF)
    ensures r.ppu == p.(regs := p.regs.(lastRead := r.value))
  {
    var b := p.oam[OamIndex(p.regs.oamAddr)];
    var n := if p.regs.oamAddr & 3 == 2 then b & AttrDefined else b;
    RegReadResult(n, p.(regs := p.regs.(lastRead := n)), [])
  }

  /** $2007: below the palette the value comes from the read buffer, which
      then takes the byte at `v`; palette reads are immediate (the buffer
      still takes the host byte underneath). `v` is reduced to 14 bits and
      stepped by the VRAM increment. */
  function ReadData(p: Ppu, host: bv16 -> bv8): (r: RegReadResult)
    requires Valid(p)
    ensures Valid(r.ppu) && r.effects == [HostRead(p.scroll.v % 0x4000)]
    ensures p.scroll.v % 0x4000 < 0x3F00 ==> r.value == p.regs.readBuffer
    ensures p.scroll.v % 0x4000 >= 0x3F00 ==> r.value == Read(p, host, p.scroll.v % 0x4000).value
    ensures r.ppu == p.(regs := p.regs.(readBuffer := host(p.scroll.v % 0x4000), lastRead := r.value),
                        scroll := p.scroll.(v := NextV(p.scroll.v % 0x4000, p.regs.ctrl)))
  {
    var a := p.scroll.v % 0x4000;
    var n := if a < 0x3F00 then p.regs.readBuffer else Read(p, host, a).value;
    RegReadResult(n, p.(regs := p.regs.(readBuffer := host(a), lastRead := n),
                        scroll := p.scroll.(v := NextV(a, p.regs.ctrl))), [HostRead(a)])
  }

  /** A CPU read of PPU register `reg` (the address mod 8); the write-only
      registers return the open-bus latch. */
  function RegRead(p: Ppu, host: bv16 -> bv8, reg: bv8): (r: RegReadResult)
    requires Valid(p)
    ensures Valid(r.ppu)
    ensures r.value == r.ppu.regs.lastRead
  {
    match reg
    case 2 => ReadStatus(p)
    case 4 => ReadOamData(p)
    case 7 => ReadData(p, host)
    case _ => RegReadResult(p.regs.lastRead, p, [])
  }

  /** A pair of $2005 writes from a clear toggle: the first gives coarse X
      and fine X, the second coarse Y and fine Y; the nametable select and
      `v` stay, and the toggle is clear again. */
  lemma ScrollPair(s: Scroll, x: bv8, y: bv8)
    requires ScrollValid(s) && !s.w
    ensures var r := WriteScroll(WriteScroll(s, x), y);
            && CoarseX(r.t) == (x as bv16) >> 3 && r.fineX == x & 7
            && CoarseY(r.t) == (y as bv16) >> 3 && FineY(r.t) == (y as bv16) & 7
            && NtX(r.t) == NtX(s.t) && NtY(r.t) == NtY(s.t)
            && r.v == s.v && !r.w
  {
    var s1 := WriteScroll(s, x);
    ScrollXFields(s.t, x);
    ScrollYFields(s1.t, y);
  }

  /** A pair of $2006 writes from a clear toggle loads `v` and `t` with the
      14-bit address whose high byte is the first value (bits 6-7 dropped)
      and whose low byte is the second. */
  lemma AddrPair(s: Scroll, hi: bv8, lo: bv8)
    requires ScrollValid(s) && !s.w
    ensures var r := WriteAddr(WriteAddr(s, hi), lo);
            && r.v == r.t && r.v == (((hi as bv16) & 0x3F) << 8) | (lo as bv16)
            && r.fineX == s.fineX && !r.w
  {
    AddrHighLow(s.t, hi, lo);
  }

  lemma AddrHighLow(t: bv16, hi: bv8, lo: bv8)
    requires Addr15(t)
    ensures AddrLow(AddrHigh(t, hi), lo) == (((hi as bv16) & 0x3F) << 8) | (lo as bv16)
  {
    var h := ((hi as bv16) & 0x3F) << 8;
    assert ((t & 0xFF) | h) & !0xFF == h;
  }

  /** A $2002 read clears the write toggle, so the next $2005 or $2006
      write is the first of a pair. */
  lemma StatusReadResetsToggle(p: Ppu, x: bv8)
    requires Valid(p)
    ensures var q := ReadStatus(p).ppu;
            RegWrite(q, 5, x).ppu.scroll.fineX == x & 7
            && RegWrite(q, 6, x).ppu.scroll.t == AddrHigh(p.scroll.t, x)
  {
  }

  /** Each $2007 access moves `v` by the increment PPUCTRL selects, one
      byte across or one row down. */
  lemma DataPortIncrement(p: Ppu, value: bv8, host: bv16 -> bv8)
    requires Valid(p)
    ensures RegWrite(p, 7, value).ppu.scroll.v == (p.scroll.v + VramIncrement(p.regs.ctrl)) % 0x8000
    ensures RegRead(p, host, 7).ppu.scroll.v == (p.scroll.v % 0x4000 + VramIncrement(p.regs.ctrl)) % 0x8000
  {
  }

  /** Reading $2004 at a sprite's attribute byte drops bits 2-4; any other
      byte reads back as stored. */
  lemma OamAttributeMask(p: Ppu, host: bv16 -> bv8)
    requires Valid(p)
    ensures var b := p.oam[OamIndex(p.regs.oamAddr)];
            RegRead(p, host, 4).value == if p.regs.oamAddr & 3 == 2 then b & 0xE3 else b
  {
  }

  /** Outside rendering, a $2004 write is read back by $2004 once OAMADDR
      is set back, attribute bits 2-4 excepted. */
  lemma OamWriteRead(p: Ppu, value: bv8, host: bv16 -> bv8)
    requires Valid(p) && !IsRendering(p.regs.mask)
    ensures var q := RegWrite(RegWrite(p, 4, value).ppu, 3, p.regs.oamAddr).ppu;
            RegRead(q, host, 4).value == if p.regs.oamAddr & 3 == 2 then value & 0xE3 else value
  {
  }

  /** A $2000 write through the register port: PPUCTRL becomes the value,
      the nametable select of `t` becomes its bits 0-1 while coarse X,
      coarse Y and fine Y of `t` stay, and `v`, fine X, the toggle, OAM and
      the status are untouched. Its only effects are the NMI edges. */
  lemma CtrlWriteFields(p: Ppu, value: bv8)
    requires Valid(p)
    ensures var r := RegWrite(p, 0, value);
            && r.ppu.regs.ctrl == value
            && NtX(r.ppu.scroll.t) == (value & 1 != 0) && NtY(r.ppu.scroll.t) == (value & 2 != 0)
            && CoarseX(r.ppu.scroll.t) == CoarseX(p.scroll.t) && CoarseY(r.ppu.scroll.t) == CoarseY(p.scroll.t)
            && FineY(r.ppu.scroll.t) == FineY(p.scroll.t)
            && r.ppu.scroll.v == p.scroll.v && r.ppu.scroll.fineX == p.scroll.fineX && r.ppu.scroll.w == p.scroll.w
            && r.ppu.oam == p.oam && r.ppu.regs.status == p.regs.status
            && (TriggerNmi in r.effects <==> CtrlTriggersNmi(p.regs, p.timing, value))
            && (SuppressNmi in r.effects <==> CtrlSuppressesNmi(p.regs, p.timing, value))
  {
    var t := CtrlT(p.scroll.t, value);
    CtrlTFields(p.scroll.t, value);
    KeptFields(t, p.scroll.t);
    SelectBits(t, value);
  }

  /** Two addresses that agree outside bits 10-11 agree in coarse X,
      coarse Y and fine Y. */
  lemma KeptFields(a: bv16, b: bv16)
    requires a & 0xF3FF == b & 0xF3FF
    ensures CoarseX(a) == CoarseX(b) && CoarseY(a) == CoarseY(b) && FineY(a) == FineY(b)
  {
    assert CoarseX(a) == (a & 0xF3FF) & 0x1F;
    assert CoarseX(b) == (b & 0xF3FF) & 0x1F;
    assert CoarseY(a) == ((a & 0xF3FF) >> 5) & 0x1F;
    assert CoarseY(b) == ((b & 0xF3FF) >> 5) & 0x1F;
    assert FineY(a) == ((a & 0xF3FF) >> 12) & 7;
    assert FineY(b) == ((b & 0xF3FF) >> 12) & 7;
  }

  /** Bits 10-11 holding the value's two low bits are the two nametable
      selects. */
  lemma SelectBits(t: bv16, value: bv8)
    requires (t >> 10) & 3 == (value as bv16) & 3
    ensures NtX(t) == (value & 1 != 0) && NtY(t) == (value & 2 != 0)
  {
    assert (t & 0x400 != 0) == (((t >> 10) & 3) & 1 != 0);
    assert (t & 0x800 != 0) == (((t >> 10) & 3) & 2 != 0);
    assert ((value as bv16) & 1 != 0) == (value & 1 != 0);
    assert ((value as bv16) & 2 != 0) == (value & 2 != 0);
  }

  /** A $2004 write while rendering on a rendering line is dropped: OAM
      and OAMADDR stay. Otherwise exactly one OAM cell, the one at OAMADDR,
      takes the value, and OAMADDR moves on by one, from 255 back to 0. */
  lemma OamWriteCell(p: Ppu, value: bv8)
    requires Valid(p)
    ensures var q := WriteOamData(p, value);
            IsRendering(p.regs.mask) && IsRenderingScanline(p.timing.scanline) ==>
              q.oam == p.oam && q.regs.oamAddr == p.regs.oamAddr
    ensures var q := WriteOamData(p, value);
            !(IsRendering(p.regs.mask) && IsRenderingScanline(p.timing.scanline)) ==>
              && |q.oam| == |p.oam| && q.oam[p.regs.oamAddr as int] == value
              && (forall i | 0 <= i < |p.oam| && i != p.regs.oamAddr as int :: q.oam[i] == p.oam[i])
              && q.regs.oamAddr as int == (p.regs.oamAddr as int + 1) % 256
  {
    if !(IsRendering(p.regs.mask) && IsRenderingScanline(p.timing.scanline)) {
      var a := p.regs.oamAddr;
      assert WriteOamData(p, value).oam == p.oam[a as int := value];
      assert WriteOamData(p, value).regs.oamAddr == a + 1;
      NextByte(a);
    }
  }

  /** One step of an 8-bit counter, as integers. */
  lemma NextByte(a: bv8)
    ensures (a + 1) as int == (a as int + 1) % 256
  {
    if a == 255 {
    } else {
      assert (a + 1) as int == a as int + 1;
    }
  }

  /** $2007 reads below the palette lag by one: each returns the byte at
      the address of the read before it, which the buffer kept. A palette
      read returns its entry at once, while the buffer still takes the byte
      the host holds underneath. */
  lemma BufferedRead(p: Ppu, host: bv16 -> bv8)
    requires Valid(p)
    ensures var a := p.scroll.v % 0x4000;
            var r1 := ReadData(p, host);
            && r1.ppu.regs.readBuffer == host(a)
            && (a < 0x3F00 ==> r1.value == p.regs.readBuffer)
            && (a >= 0x3F00 ==> r1.value == Read(p, host, a).value)
            && (r1.ppu.scroll.v % 0x4000 < 0x3F00 ==> ReadData(r1.ppu, host).value == host(a))
  {
  }

}
