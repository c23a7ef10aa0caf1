/** Drawing a dot (covnes/src/nes/ppu.rs): the background pixel from the
    shift registers and fine X, the sprite pixel from the loaded sprites,
    their combination by priority, sprite-0 hit, and the eight-dot
    background fetch cycle that refills the shift registers. */
module PpuRender {
  import opened PpuScroll
  import opened Ppu
  import opened PpuSprites

  /** PPUSTATUS with `flag` (one of its three flags) raised or lowered. */
  function WithFlag(status: bv8, flag: bv8, on: bool): (r: bv8)
    requires status & 0x1F == 0 && flag & 0x1F == 0
    ensures r & 0x1F == 0
    ensures r & flag == (if on then flag else 0)
    ensures r & !flag == status & !flag
  {
    if on then status | flag else status & !flag
  }

  /** The 2-bit background pattern at fine X `fineX`: bit 15 - fineX of the
      high and low pattern shift registers. */
  function BgPattern(b: Background, fineX: bv8): (r: bv8)
    requires fineX < 8
    ensures r < 4
    ensures (r & 2 == 2) == (b.highShift & (0x8000 >> fineX as bv16) != 0)
    ensures (r & 1 == 1) == (b.lowShift & (0x8000 >> fineX as bv16) != 0)
  {
    var shift := 15 - fineX as bv16;
    ((((b.highShift >> shift) & 1) << 1) | ((b.lowShift >> shift) & 1)) as bv8
  }

  /** The background palette index: 0 (the backdrop) for a transparent
      pattern, else the pattern within the palette the attribute shift
      registers give at fine X. */
  function BgPalette(b: Background, fineX: bv8): (r: bv8)
    requires fineX < 8
    ensures r < 16
    ensures r == 0 <==> BgPattern(b, fineX) == 0
    ensures r != 0 ==>
              && r & 3 == BgPattern(b, fineX)
              && (r & 4 == 4) == (b.atShiftL & (0x80 >> fineX) != 0)
              && (r & 8 == 8) == (b.atShiftH & (0x80 >> fineX) != 0)
  {
    var pattern := BgPattern(b, fineX);
    if pattern == 0 then 0
    else
      var shift := 7 - fineX;
      pattern | (((((b.atShiftH >> shift) & 1) << 1) | ((b.atShiftL >> shift) & 1)) << 2)
  }

  /** A layer shows at column `x` when it is enabled and either leftmost
      clipping is off or `x` is past the first eight columns. */
  predicate LayerShown(mask: bv8, show: bv8, leftmost: bv8, x: int) {
    mask & show == show && !(mask & leftmost != leftmost && x < 8)
  }

  /** What the pixel stage draws at column `x` of `scanline`: the palette
      index after priority, and whether sprite 0 hit. Sprites are never
      drawn on line 0, which has no sprites evaluated for it. */
  datatype Drawn = Drawn(index: bv8, hit: bool)

  function Draw(p: Ppu, x: int): (r: Drawn)
    requires Valid(p)
    ensures r.index < 32
    ensures !LayerShown(p.regs.mask, MaskShowSprites, MaskSpriteLeftmost, x) || p.timing.scanline < 1 ==>
              r == Drawn(if LayerShown(p.regs.mask, MaskShowBg, MaskBgLeftmost, x) then BgPalette(p.bg, p.scroll.fineX) else 0, false)
    ensures r.hit <==> p.timing.scanline >= 1 && LayerShown(p.regs.mask, MaskShowSprites, MaskSpriteLeftmost, x)
                       && LayerShown(p.regs.mask, MaskShowBg, MaskBgLeftmost, x)
                       && p.line.count > 0 && p.line.zeroCurrent && x != 255
                       && BgPalette(p.bg, p.scroll.fineX) != 0 && SpritePattern(p.line.sprites[0], x) != 0
  {
    var bg := if LayerShown(p.regs.mask, MaskShowBg, MaskBgLeftmost, x) then BgPalette(p.bg, p.scroll.fineX) else 0;
    if p.timing.scanline >= 1 && LayerShown(p.regs.mask, MaskShowSprites, MaskSpriteLeftmost, x) then
      var fg := Scan(p.line.sprites, p.line.count, x, NoSpritePixel);
      var hit := p.line.count > 0 && p.line.zeroCurrent && x != 255 && bg != 0
                 && SpritePattern(p.line.sprites[0], x) != 0;
      FrontInRange(p.line.sprites, p.line.count, x);
      Drawn(Priority(bg, fg), hit)
    else
      Drawn(bg, false)
  }

  /** The sprite result of the scan is either nothing or a sprite palette
      entry. */
  lemma FrontInRange(sprites: seq<Sprite>, n: nat, x: int)
    requires n <= |sprites|
    ensures var fg := Scan(sprites, n, x, NoSpritePixel);
            fg == NoSpritePixel || 16 <= fg.palette < 32
  {
    ScanShowsFront(sprites, n, x, NoSpritePixel);
  }

  /** The drawn index is that of the frontmost opaque sprite at `x` when it
      is in front of the background or the background is transparent, and
      the background's otherwise. */
  lemma DrawShowsFront(p: Ppu, x: int)
    requires Valid(p) && p.timing.scanline >= 1 && LayerShown(p.regs.mask, MaskShowSprites, MaskSpriteLeftmost, x)
    ensures var f := Front(p.line.sprites, p.line.count, x);
            var bg := if LayerShown(p.regs.mask, MaskShowBg, MaskBgLeftmost, x) then BgPalette(p.bg, p.scroll.fineX) else 0;
            Draw(p, x).index
              == if f.Some? && (bg == 0 || p.line.sprites[f.value].attr & AttrPriorityBehind != AttrPriorityBehind)
                 then SpritePalette(p.line.sprites[f.value], SpritePattern(p.line.sprites[f.value], x))
                 else bg
  {
    ScanShowsFront(p.line.sprites, p.line.count, x, NoSpritePixel);
  }

  /** The shift registers move one dot on: the pattern registers shift in
      zeros, the attribute registers the attribute latches. */
  function Shift(b: Background): (r: Background)
    ensures r.highShift == b.highShift << 1 && r.lowShift == b.lowShift << 1
    ensures r.atShiftL == (b.atShiftL << 1) | b.atLatchL && r.atShiftH == (b.atShiftH << 1) | b.atLatchH
    ensures r.(highShift := b.highShift, lowShift := b.lowShift, atShiftL := b.atShiftL, atShiftH := b.atShiftH) == b
  {
    b.(highShift := b.highShift << 1, lowShift := b.lowShift << 1,
       atShiftL := (b.atShiftL << 1) | b.atLatchL, atShiftH := (b.atShiftH << 1) | b.atLatchH)
  }

  /** Whether dot `dot` of `scanline` draws a pixel: visible lines, dots
      2-257, which draw columns 0-255. */
  predicate Visible(c: Timing) {
    c.scanline < 240 && 2 <= c.dot < 258
  }

  /** The registers after a drawn pixel: sprite-0 hit is raised when it hit
      and kept otherwise. */
  function RecordHit(regs: Regs, hit: bool): (r: Regs)
    requires RegsValid(regs)
    ensures RegsValid(r) && r.(status := regs.status) == regs
    ensures r.status & StatusSprite0Hit == (if hit then StatusSprite0Hit else regs.status & StatusSprite0Hit)
    ensures r.status & !StatusSprite0Hit == regs.status & !StatusSprite0Hit
  {
    if hit then regs.(status := WithFlag(regs.status, StatusSprite0Hit, true)) else regs
  }

  /** The pixel stage of a dot: on a visible dot it draws column dot - 2
      (its colour read from palette RAM), recording sprite-0 hit; on every
      dot it shifts the background registers. */
  function Pixel(p: Ppu, host: bv16 -> bv8): (r: Stepped)
    requires Valid(p)
    ensures Valid(r.ppu)
    ensures r.ppu == p.(regs := r.ppu.regs, bg := Shift(p.bg))
    ensures Visible(p.timing) ==>
              var d := Draw(p, p.timing.dot - 2);
              && r.effects == [SetPixel(p.timing.scanline, p.timing.dot - 2, Read(p, host, 0x3F00 + d.index as bv16).value)]
              && r.ppu.regs == RecordHit(p.regs, d.hit)
    ensures !Visible(p.timing) ==> r.effects == [] && r.ppu.regs == p.regs
  {
    if Visible(p.timing) then
      var x := p.timing.dot - 2;
      var d := Draw(p, x);
      var colour := Read(p, host, 0x3F00 + d.index as bv16);
      Stepped(p.(regs := RecordHit(p.regs, d.hit), bg := Shift(p.bg)), [SetPixel(p.timing.scanline, x, colour.value)])
    else
      Stepped(p.(bg := Shift(p.bg)), [])
  }

  /** The palette reads of the pixel stage never reach the host. */
  lemma PaletteReadIsInternal(p: Ppu, host: bv16 -> bv8, index: bv8)
    requires |p.cgram| == 32 && index < 32
    ensures Read(p, host, 0x3F00 + index as bv16).effects == []
  {
  }

  /** Reloading the shift registers: the fetched pattern bytes enter the
      low halves, the fetched attribute's two bits the latches. */
  function Reload(b: Background): (r: Background)
    ensures r.lowShift & 0xFF00 == b.lowShift & 0xFF00 && r.lowShift & 0xFF == b.low as bv16
    ensures r.highShift & 0xFF00 == b.highShift & 0xFF00 && r.highShift & 0xFF == b.high as bv16
    ensures r.atLatchL == b.at & 1 && r.atLatchH == (b.at & 2) >> 1
    ensures r.(lowShift := b.lowShift, highShift := b.highShift, atLatchL := b.atLatchL, atLatchH := b.atLatchH) == b
  {
    b.(lowShift := (b.lowShift & 0xFF00) | (b.low as bv16), highShift := (b.highShift & 0xFF00) | (b.high as bv16),
       atLatchL := b.at & 1, atLatchH := (b.at & 2) >> 1)
  }

  /** After eight shifts the reloaded pattern bytes reach the top halves,
      so the tile fetched two tiles ahead is drawn. */
  lemma EightShiftsRaiseReload(b: Background)
    ensures var r := Shift(Shift(Shift(Shift(Shift(Shift(Shift(Shift(Reload(b)))))))));
            r.lowShift >> 8 == b.low as bv16 && r.highShift >> 8 == b.high as bv16
  {
  }

  /** Step `dot % 8` of the background fetch cycle on dots 2-255 and
      322-337, after the pixel: nametable byte, attribute byte (reduced to
      the tile's quadrant), low and high pattern bytes, each an address
      step followed by a read; after the high byte coarse X moves on, and
      at the start of the next cycle the shift registers reload. */
  function FetchStep(p: Ppu, host: bv16 -> bv8): (r: Stepped)
    requires Valid(p)
    ensures Valid(r.ppu)
    ensures r.ppu.(bg := p.bg, scroll := p.scroll) == p
    ensures r.ppu.scroll.(v := p.scroll.v) == p.scroll
    ensures p.timing.dot % 8 != 0 ==> r.ppu.scroll == p.scroll
    ensures p.timing.dot % 8 == 0 ==> r.ppu.scroll.v == HScroll(IsRendering(p.regs.mask), p.scroll.v)
    ensures p.timing.dot % 2 == 1 ==> r.effects == []
    ensures p.timing.dot % 2 == 0 ==> r.effects == Read(p, host, p.bg.fetchAddr).effects
  {
    var b := p.bg;
    var v := p.scroll.v;
    match p.timing.dot % 8
    case 1 => Stepped(p.(bg := Reload(b.(fetchAddr := NtAddr(v)))), [])
    case 2 =>
      var f := Read(p, host, b.fetchAddr);
      Stepped(p.(bg := b.(nt := f.value)), f.effects)
    case 3 => Stepped(p.(bg := b.(fetchAddr := AtAddr(v))), [])
    case 4 =>
      var f := Read(p, host, b.fetchAddr);
      Stepped(p.(bg := b.(at := AttributeQuadrant(f.value, v))), f.effects)
    case 5 => Stepped(p.(bg := b.(fetchAddr := BgAddr(p.regs.ctrl & CtrlBgTable1000 == CtrlBgTable1000, b.nt, v))), [])
    case 6 =>
      var f := Read(p, host, b.fetchAddr);
      Stepped(p.(bg := b.(low := f.value)), f.effects)
    case 7 => Stepped(p.(bg := b.(fetchAddr := b.fetchAddr + 8)), [])
    case _ =>
      var f := Read(p, host, b.fetchAddr);
      Stepped(p.(bg := b.(high := f.value), scroll := p.scroll.(v := HScroll(IsRendering(p.regs.mask), v))), f.effects)
  }

  /** Dot 256: the last pixel stage of the line's fetches, the high
      pattern byte, and the move to the next row of `v`. */
  function LastFetch(p: Ppu, host: bv16 -> bv8): (r: Stepped)
    requires Valid(p)
    ensures Valid(r.ppu)
    ensures r.ppu.(bg := p.bg, scroll := p.scroll, regs := p.regs) == p
    ensures r.ppu.regs.(status := p.regs.status) == p.regs
    ensures r.ppu.scroll == p.scroll.(v := VScroll(IsRendering(p.regs.mask), p.scroll.v))
  {
    var a := Pixel(p, host);
    var f := Read(a.ppu, host, a.ppu.bg.fetchAddr);
    VScrollKeepsColumn(a.ppu.scroll.v);
    Stepped(a.ppu.(bg := a.ppu.bg.(high := f.value), scroll := a.ppu.scroll.(v := VScroll(IsRendering(p.regs.mask), a.ppu.scroll.v))),
            a.effects + f.effects)
  }

  /** Dots 2-255 and 322-337: the pixel stage, then the fetch step. */
  function PixelAndFetch(p: Ppu, host: bv16 -> bv8): (r: Stepped)
    requires Valid(p)
    ensures Valid(r.ppu)
    ensures r.ppu.(bg := p.bg, scroll := p.scroll, regs := p.regs) == p
    ensures r.ppu.regs.(status := p.regs.status) == p.regs
    ensures r.ppu.scroll.(v := p.scroll.v) == p.scroll
  {
    var a := Pixel(p, host);
    var b := FetchStep(a.ppu, host);
    Stepped(b.ppu, a.effects + b.effects)
  }

  /** Dot 257: the last pixel stage, the shift registers reloaded with the
      first tile of the next line, and the column of `v` copied from `t`. */
  function FirstReload(p: Ppu, host: bv16 -> bv8): (r: Stepped)
    requires Valid(p)
    ensures Valid(r.ppu)
    ensures r.ppu.(bg := p.bg, scroll := p.scroll, regs := p.regs) == p
    ensures r.ppu.regs.(status := p.regs.status) == p.regs
    ensures r.ppu.scroll == p.scroll.(v := HUpdate(IsRendering(p.regs.mask), p.scroll.v, p.scroll.t))
  {
    var a := Pixel(p, host);
    Stepped(a.ppu.(bg := Reload(a.ppu.bg), scroll := a.ppu.scroll.(v := HUpdate(IsRendering(p.regs.mask), a.ppu.scroll.v, a.ppu.scroll.t))),
            a.effects)
  }

  /** The background work of a dot of a rendering line (visible lines and
      the pre-render line 261). */
  function BackgroundDot(p: Ppu, host: bv16 -> bv8): (r: Stepped)
    requires Valid(p)
    ensures Valid(r.ppu)
    ensures r.ppu.(bg := p.bg, scroll := p.scroll, regs := p.regs) == p
    ensures r.ppu.regs.(status := p.regs.status) == p.regs
    ensures r.ppu.scroll.(v := p.scroll.v) == p.scroll
  {
    var dot := p.timing.dot;
    var rendering := IsRendering(p.regs.mask);
    if dot == 1 || dot == 321 then Stepped(p.(bg := p.bg.(fetchAddr := NtAddr(p.scroll.v))), [])
    else if 2 <= dot <= 255 || 322 <= dot <= 337 then PixelAndFetch(p, host)
    else if dot == 256 then LastFetch(p, host)
    else if dot == 257 then FirstReload(p, host)
    else if 280 <= dot <= 304 && p.timing.scanline == 261 then
      Stepped(p.(scroll := p.scroll.(v := VUpdate(rendering, p.scroll.v, p.scroll.t))), [])
    else if dot == 338 || dot == 340 then
      Stepped(p, Read(p, host, p.bg.fetchAddr).effects)
    else Stepped(p, [])
  }
}
