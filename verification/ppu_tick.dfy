/** One PPU dot (covnes/src/nes/ppu.rs, `tick`): sprite evaluation and
    sprite pattern fetches on visible lines, the background pipeline on
    rendering lines, the VBLANK flag and its NMI, the odd-frame skip, and
    the dot and scanline counters. */
module PpuTick {
  import opened Common
  import opened PpuScroll
  import opened Ppu
  import opened PpuSprites
  import opened PpuRender

  /** Sprite evaluation on dots 1-256 of a visible line. */
  function Evaluate(p: Ppu): (r: Ppu)
    requires Valid(p) && 1 <= p.timing.dot <= 256
    ensures Valid(r)
    ensures r == p.(eval := r.eval, secondaryOam := r.secondaryOam, regs := r.regs)
    ensures r.regs == p.regs.(oamAddr := r.regs.oamAddr, status := r.regs.status)
  {
    var v := EvaluateDot(Evaluator(p.eval, p.secondaryOam, p.regs.oamAddr, p.regs.status), p.oam,
                         p.timing.scanline, SpriteSize(p.regs.ctrl), p.timing.dot);
    p.(eval := v.eval, secondaryOam := v.secondary, regs := p.regs.(oamAddr := v.oamAddr, status := v.status))
  }

  /** The four bytes of secondary OAM slot `no`. */
  function SlotByte(p: Ppu, no: nat, k: nat): bv8
    requires Valid(p) && no < 8 && k < 4
  {
    p.secondaryOam[no * 4 + k]
  }

  /** Step 4 of sprite slot `no`: the slot's Y, tile, attributes and X are
      read from secondary OAM; a slot holding a sprite (Y below 240) gets
      its X and attributes, the fetch address of its row and the sprite
      count `no + 1`. An empty slot ($FF) changes nothing. */
  function LoadSprite(p: Ppu, no: nat): (r: Ppu)
    requires Valid(p) && no < 8
    ensures Valid(r)
    ensures SlotByte(p, no, 0) >= 240 ==> r == p
    ensures SlotByte(p, no, 0) < 240 ==>
              var attr := SlotByte(p, no, 2) & AttrDefined;
              var size := SpriteSize(p.regs.ctrl);
              var row := SpriteRow(p.timing.scanline, SlotByte(p, no, 0), size, attr & AttrFlipVert == AttrFlipVert);
              && r.bg == p.bg.(fetchAddr := RowAddr(TileAddr(p.regs.ctrl, SlotByte(p, no, 1)), ByteOf(row)))
              && r.line.count == no + 1
              && r.line.sprites == p.line.sprites[no := p.line.sprites[no].(x := SlotByte(p, no, 3), attr := attr)]
              && r == p.(bg := r.bg, line := r.line)
  {
    var y := SlotByte(p, no, 0);
    if y < 240 then
      var attr := SlotByte(p, no, 2) & AttrDefined;
      var size := SpriteSize(p.regs.ctrl);
      var row := SpriteRow(p.timing.scanline, y, size, attr & AttrFlipVert == AttrFlipVert);
      var addr := RowAddr(TileAddr(p.regs.ctrl, SlotByte(p, no, 1)), ByteOf(row));
      p.(bg := p.bg.(fetchAddr := addr),
         line := p.line.(sprites := p.line.sprites[no := p.line.sprites[no].(x := SlotByte(p, no, 3), attr := attr)],
                         count := no + 1))
    else p
  }

  /** Sprite pattern fetches on dots 257-320 of a visible line, eight dots
      per secondary OAM slot: load on step 4, the low pattern byte on step
      5, the address of the high byte (8 on) on step 6 and the high byte on
      step 7. */
  function SpriteFetch(p: Ppu, host: bv16 -> bv8): (r: Stepped)
    requires Valid(p) && 257 <= p.timing.dot <= 320
    ensures Valid(r.ppu)
    ensures r.ppu == p.(bg := r.ppu.bg, line := r.ppu.line)
    ensures r.ppu.bg == p.bg.(fetchAddr := r.ppu.bg.fetchAddr)
    ensures (p.timing.dot - 257) % 8 != 5 && (p.timing.dot - 257) % 8 != 7 ==> r.effects == []
  {
    var s := p.timing.dot - 257;
    var no := s / 8;
    match s % 8
    case 4 => Stepped(LoadSprite(p, no), [])
    case 5 =>
      var f := Read(p, host, p.bg.fetchAddr);
      Stepped(p.(line := p.line.(sprites := p.line.sprites[no := p.line.sprites[no].(low := f.value)])), f.effects)
    case 6 => Stepped(p.(bg := p.bg.(fetchAddr := p.bg.fetchAddr + 8)), [])
    case 7 =>
      var f := Read(p, host, p.bg.fetchAddr);
      Stepped(p.(line := p.line.(sprites := p.line.sprites[no := p.line.sprites[no].(high := f.value)])), f.effects)
    case _ => Stepped(p, [])
  }

  /** The sprite work of a dot: on dot 257 of any line with rendering on
      the sprite count restarts at 0; on visible lines with rendering on,
      evaluation (dots 1-256), fetches (257-320), and on dot 321 the
      sprite-0 verdict moves to the line being drawn. */
  function SpriteStage(p: Ppu, host: bv16 -> bv8): (r: Stepped)
    requires Valid(p)
    ensures Valid(r.ppu)
    ensures r.ppu.timing == p.timing && r.ppu.scroll == p.scroll && r.ppu.cgram == p.cgram && r.ppu.oam == p.oam
    ensures r.ppu.regs == p.regs.(oamAddr := r.ppu.regs.oamAddr, status := r.ppu.regs.status)
    ensures !IsRendering(p.regs.mask) ==> r == Stepped(p, [])
  {
    var rendering := IsRendering(p.regs.mask);
    var dot := p.timing.dot;
    var p := if rendering && dot == 257 then p.(line := p.line.(count := 0)) else p;
    if rendering && p.timing.scanline <= 239 then
      if 1 <= dot <= 256 then Stepped(Evaluate(p), [])
      else if 257 <= dot <= 320 then SpriteFetch(p, host)
      else if dot == 321 then Stepped(p.(line := p.line.(zeroCurrent := p.eval.zeroNext)), [])
      else Stepped(p, [])
    else Stepped(p, [])
  }

  /** The status changes at the start of the pre-render line: overflow is
      cleared on dot 0, VBLANK and sprite-0 hit on dot 1. */
  function PreRenderFlags(p: Ppu): (r: Ppu)
    requires Valid(p)
    ensures Valid(r) && r == p.(regs := r.regs) && r.regs == p.regs.(status := r.regs.status)
    ensures p.timing.scanline == 261 && p.timing.dot == 0 ==>
              r.regs.status == WithFlag(p.regs.status, StatusOverflow, false)
    ensures p.timing.scanline == 261 && p.timing.dot == 1 ==>
              r.regs.status == WithFlag(p.regs.status, StatusVblank | StatusSprite0Hit, false)
    ensures !(p.timing.scanline == 261 && p.timing.dot <= 1) ==> r == p
  {
    if p.timing.scanline == 261 && p.timing.dot == 0 then
      p.(regs := p.regs.(status := WithFlag(p.regs.status, StatusOverflow, false)))
    else if p.timing.scanline == 261 && p.timing.dot == 1 then
      p.(regs := p.regs.(status := WithFlag(p.regs.status, StatusVblank | StatusSprite0Hit, false)))
    else p
  }

  /** The odd-frame skip: on dot 338 of the pre-render line of an odd
      frame with rendering on it is armed; on dot 339 an armed skip jumps
      to dot 340 (which the counter step then ends) and disarms. */
  function Skip(c: Timing, rendering: bool): (r: Timing)
    requires TimingValid(c)
    ensures TimingValid(r) && r.scanline == c.scanline && r.oddFrame == c.oddFrame
    ensures c.scanline == 261 && c.dot == 338 ==> r == c.(performSkip := c.performSkip || (rendering && c.oddFrame))
    ensures c.scanline == 261 && c.dot == 339 && c.performSkip ==> r == c.(dot := 340, performSkip := false)
    ensures !(c.scanline == 261 && (c.dot == 338 || (c.dot == 339 && c.performSkip))) ==> r == c
  {
    var c := if c.scanline == 261 && c.dot == 338 && rendering && c.oddFrame then c.(performSkip := true) else c;
    if c.scanline == 261 && c.dot == 339 && c.performSkip then c.(dot := c.dot + 1, performSkip := false) else c
  }

  /** The work of a dot of a rendering line (0-239 and 261). */
  function RenderLine(p: Ppu, host: bv16 -> bv8): (r: Stepped)
    requires Valid(p)
    ensures Valid(r.ppu)
    ensures r.ppu.timing == Skip(p.timing, IsRendering(p.regs.mask))
    ensures r.ppu.regs.ctrl == p.regs.ctrl && r.ppu.regs.mask == p.regs.mask && r.ppu.regs.clearVblank == p.regs.clearVblank
    ensures 257 <= p.timing.dot <= 320 ==> r.ppu.regs.oamAddr == 0
  {
    var a := BackgroundDot(PreRenderFlags(p), host);
    var q := a.ppu;
    var q := if 257 <= p.timing.dot <= 320 then q.(regs := q.regs.(oamAddr := 0)) else q;
    Stepped(q.(timing := Skip(q.timing, IsRendering(q.regs.mask))), a.effects)
  }

  /** Dot 1 of line 241: VBLANK is raised, with an NMI when PPUCTRL asks
      for one, unless a $2002 read has just asked for it to be cleared. */
  function StartVblank(p: Ppu): (r: Stepped)
    requires Valid(p)
    ensures Valid(r.ppu) && r.ppu == p.(regs := r.ppu.regs) && r.ppu.regs == p.regs.(status := r.ppu.regs.status)
    ensures p.timing.dot == 1 && !p.regs.clearVblank ==>
              && r.ppu.regs.status == p.regs.status | StatusVblank
              && r.effects == if p.regs.ctrl & CtrlNmi == CtrlNmi then [TriggerNmi] else []
    ensures !(p.timing.dot == 1 && !p.regs.clearVblank) ==> r == Stepped(p, [])
  {
    if p.timing.dot == 1 && !p.regs.clearVblank then
      Stepped(p.(regs := p.regs.(status := WithFlag(p.regs.status, StatusVblank, true))),
              if p.regs.ctrl & CtrlNmi == CtrlNmi then [TriggerNmi] else [])
    else Stepped(p, [])
  }

  /** A pending clear from a $2002 read lowers VBLANK and is done. */
  function ClearVblank(regs: Regs): (r: Regs)
    requires RegsValid(regs)
    ensures RegsValid(r) && !r.clearVblank
    ensures regs.clearVblank ==> r == regs.(status := regs.status & !StatusVblank, clearVblank := false)
    ensures !regs.clearVblank ==> r == regs
  {
    if regs.clearVblank then regs.(status := WithFlag(regs.status, StatusVblank, false), clearVblank := false) else regs
  }

  /** Dots 0-340 of lines 0-261; after the last dot of line 261 the next
      frame begins and the frame parity flips. */
  function Advance(c: Timing): (r: Timing)
    requires TimingValid(c)
    ensures TimingValid(r) && r.performSkip == c.performSkip
  {
    var dot := c.dot + 1;
    if dot > 340 then
      var scanline := c.scanline + 1;
      if scanline > 261 then c.(dot := dot % 341, scanline := scanline % 262, oddFrame := !c.oddFrame)
      else c.(dot := dot % 341, scanline := scanline)
    else c.(dot := dot)
  }

  /** The position of a dot within its frame. */
  function Position(c: Timing): int {
    c.scanline * 341 + c.dot
  }

  const FrameDots := 341 * 262

  /** The counters visit the dots of a frame in order: the next position is
      one on, wrapping to 0 after the last dot of the frame, where (and only
      where) the parity flips. */
  lemma AdvanceVisitsInOrder(c: Timing)
    requires TimingValid(c)
    ensures Position(Advance(c)) == (Position(c) + 1) % FrameDots
    ensures Advance(c).oddFrame != c.oddFrame <==> Position(c) == FrameDots - 1
  {
    if c.dot == 340 && c.scanline == 261 {
      assert Position(c) + 1 == FrameDots;
    } else {
      SmallMod(Position(c) + 1, FrameDots);
    }
  }

  /** One PPU dot: the sprite stage, the line's work (rendering lines or
      the start of VBLANK), a pending VBLANK clear, and the counters. The
      effects come in the order the source makes them. */
  function Tick(p: Ppu, host: bv16 -> bv8): (r: Stepped)
    requires Valid(p)
    ensures Valid(r.ppu)
  {
    var a := SpriteStage(p, host);
    var q := a.ppu;
    var b := if q.timing.scanline <= 239 || q.timing.scanline == 261 then RenderLine(q, host)
             else if q.timing.scanline == 241 then StartVblank(q)
             else Stepped(q, []);
    var q := b.ppu;
    var q := q.(regs := ClearVblank(q.regs));
    Stepped(q.(timing := Advance(q.timing)), a.effects + b.effects)
  }

  /** Dot 1 of line 241 raises VBLANK, and NMI when PPUCTRL enables it,
      unless a $2002 read came just before: then VBLANK stays low and no
      NMI is raised. */
  lemma TickStartsVblank(p: Ppu, host: bv16 -> bv8)
    requires Valid(p) && p.timing.scanline == 241 && p.timing.dot == 1
    ensures var r := Tick(p, host);
            !p.regs.clearVblank ==>
              && r.ppu.regs.status & StatusVblank == StatusVblank
              && r.effects == if p.regs.ctrl & CtrlNmi == CtrlNmi then [TriggerNmi] else []
    ensures var r := Tick(p, host);
            p.regs.clearVblank ==> r.ppu.regs.status & StatusVblank == 0 && r.effects == [] && !r.ppu.regs.clearVblank
  {
  }

  /** Reading $2002 on the dot before VBLANK starts suppresses both the
      flag and its NMI for the frame. */
  lemma StatusReadRace(p: Ppu, host: bv16 -> bv8)
    requires Valid(p) && p.timing.scanline == 241 && p.timing.dot == 1
    ensures var r := Tick(ReadStatus(p).ppu, host);
            r.ppu.regs.status & StatusVblank == 0 && TriggerNmi !in r.effects
  {
    TickStartsVblank(ReadStatus(p).ppu, host);
  }

  /** Dot 1 of the pre-render line lowers VBLANK and sprite-0 hit; dot 0
      lowers overflow. */
  lemma TickPreRenderClears(p: Ppu, host: bv16 -> bv8)
    requires Valid(p) && p.timing.scanline == 261 && p.timing.dot <= 1
    ensures var r := Tick(p, host);
            p.timing.dot == 1 ==> r.ppu.regs.status & (StatusVblank | StatusSprite0Hit) == 0
    ensures var r := Tick(p, host);
            p.timing.dot == 0 ==> r.ppu.regs.status & StatusOverflow == 0
  {
  }

  /** On the pre-render line of an odd frame with rendering on, dot 338
      arms the skip, and the armed skip makes dot 339 the last of the
      frame: the next dot is dot 0 of line 0 of the next frame. */
  lemma OddFrameSkip(p: Ppu, host: bv16 -> bv8)
    requires Valid(p) && p.timing.scanline == 261
    ensures p.timing.dot == 338 ==>
              Tick(p, host).ppu.timing == p.timing.(dot := 339, performSkip := p.timing.performSkip || (IsRendering(p.regs.mask) && p.timing.oddFrame))
    ensures p.timing.dot == 339 && p.timing.performSkip ==>
              Tick(p, host).ppu.timing == Timing(0, 0, !p.timing.oddFrame, false)
  {
  }

  /** Without an armed skip, each dot moves the counters one position on
      in frame order. */
  lemma TickAdvances(p: Ppu, host: bv16 -> bv8)
    requires Valid(p) && !(p.timing.scanline == 261 && p.timing.dot == 339 && p.timing.performSkip)
    requires !(p.timing.scanline == 261 && p.timing.dot == 338)
    ensures Tick(p, host).ppu.timing == Advance(p.timing)
    ensures Position(Tick(p, host).ppu.timing) == (Position(p.timing) + 1) % FrameDots
  {
    AdvanceVisitsInOrder(p.timing);
  }

  /** During the sprite fetches of every rendering line OAMADDR is held at
      0. */
  lemma TickClearsOamAddr(p: Ppu, host: bv16 -> bv8)
    requires Valid(p) && (p.timing.scanline <= 239 || p.timing.scanline == 261) && 257 <= p.timing.dot <= 320
    ensures Tick(p, host).ppu.regs.oamAddr == 0
  {
  }

  /** The PPU moved to dot `dot` of the same line. */
  function AtDot(p: Ppu, dot: int): (r: Ppu)
    requires Valid(p) && 0 <= dot <= 340
    ensures Valid(r) && r.timing.dot == dot
  {
    p.(timing := p.timing.(dot := dot))
  }

  /** The PPU's own reads depend only on palette RAM and PPUMASK. */
  lemma SameRead(p: Ppu, q: Ppu, host: bv16 -> bv8, addr: bv16)
    requires |p.cgram| == 32 && q.cgram == p.cgram && q.regs.mask == p.regs.mask
    ensures Read(q, host, addr) == Read(p, host, addr)
  {
  }

  /** The slot and step a fetch dot belongs to. */
  lemma FetchDot(dot: int, no: nat, k: nat)
    requires no < 8 && k < 8 && dot == 257 + 8 * no + k
    ensures (dot - 257) / 8 == no && (dot - 257) % 8 == k
  {
    DivModOf(dot - 257, 8, no, k);
  }

  /** Step 5 reads the low pattern byte into the slot's sprite. */
  lemma FetchLowStep(q: Ppu, host: bv16 -> bv8, no: nat)
    requires Valid(q) && no < 8 && q.timing.dot == 257 + 8 * no + 5
    ensures SpriteFetch(q, host).ppu
         == q.(line := q.line.(sprites := q.line.sprites[no := q.line.sprites[no].(low := Read(q, host, q.bg.fetchAddr).value)]))
  {
    FetchDot(q.timing.dot, no, 5);
  }

  /** Step 6 moves the fetch address to the high plane. */
  lemma FetchAddrStep(q: Ppu, host: bv16 -> bv8, no: nat)
    requires Valid(q) && no < 8 && q.timing.dot == 257 + 8 * no + 6
    ensures SpriteFetch(q, host).ppu == q.(bg := q.bg.(fetchAddr := q.bg.fetchAddr + 8))
  {
    FetchDot(q.timing.dot, no, 6);
  }

  /** Step 7 reads the high pattern byte into the slot's sprite. */
  lemma FetchHighStep(q: Ppu, host: bv16 -> bv8, no: nat)
    requires Valid(q) && no < 8 && q.timing.dot == 257 + 8 * no + 7
    ensures SpriteFetch(q, host).ppu
         == q.(line := q.line.(sprites := q.line.sprites[no := q.line.sprites[no].(high := Read(q, host, q.bg.fetchAddr).value)]))
  {
    FetchDot(q.timing.dot, no, 7);
  }

  /** The four fetch dots of a slot holding a sprite that covers the line
      load its X and attributes and the low and high bytes of its pattern
      row, the high byte 8 after the low. */
  lemma SpriteSlotFetch(p: Ppu, host: bv16 -> bv8, no: nat)
    requires Valid(p) && no < 8 && p.timing.dot == 257 + 8 * no + 4
    requires SlotByte(p, no, 0) < 240
    ensures var q1 := SpriteFetch(p, host).ppu;
            var q2 := SpriteFetch(AtDot(q1, p.timing.dot + 1), host).ppu;
            var q3 := SpriteFetch(AtDot(q2, p.timing.dot + 2), host).ppu;
            var q4 := SpriteFetch(AtDot(q3, p.timing.dot + 3), host).ppu;
            var addr := q1.bg.fetchAddr;
            && q4.line.sprites[no].x == SlotByte(p, no, 3)
            && q4.line.sprites[no].attr == SlotByte(p, no, 2) & AttrDefined
            && q4.line.sprites[no].low == Read(p, host, addr).value
            && q4.line.sprites[no].high == Read(p, host, addr + 8).value
            && q4.line.count == no + 1
  {
    FetchDot(p.timing.dot, no, 4);
    var q1 := SpriteFetch(p, host).ppu;
    assert q1 == LoadSprite(p, no);
    var r1 := AtDot(q1, p.timing.dot + 1);
    var q2 := SpriteFetch(r1, host).ppu;
    FetchLowStep(r1, host, no);
    SameRead(p, r1, host, r1.bg.fetchAddr);
    var r2 := AtDot(q2, p.timing.dot + 2);
    var q3 := SpriteFetch(r2, host).ppu;
    FetchAddrStep(r2, host, no);
    var r3 := AtDot(q3, p.timing.dot + 3);
    FetchHighStep(r3, host, no);
    SameRead(p, r3, host, r3.bg.fetchAddr);
  }
}
