/** Sprites on a scanline (covnes/src/nes/ppu.rs): evaluation copies the
    sprites of OAM that cover the scanline into the 32-byte secondary OAM,
    at most eight, flagging overflow; the fetch that follows loads their
    positions, attributes and pattern rows; the pixel stage picks the
    frontmost opaque sprite at each column. */
module PpuSprites {
  import opened PpuScroll
  import opened Ppu
  import opened Common

  /** Sprite height: 16 with PPUCTRL bit 5, else 8. */
  function SpriteSize(ctrl: bv8): (size: nat)
    ensures size == 8 || size == 16
    ensures size == 16 <==> ctrl & CtrlLargeSprites == CtrlLargeSprites
  {
    if ctrl & CtrlLargeSprites == CtrlLargeSprites then 16 else 8
  }

  /** A sprite whose top is on line `y` covers `size` lines from there. */
  predicate Covers(scanline: int, y: bv8, size: nat) {
    y as int <= scanline < y as int + size
  }

  // ---------------------------------------------------------------------
  // Evaluation

  /** Sprite number `n` (0-63) and byte `m` (0-3) of an OAM address. */
  function SpriteOf(a: bv8): bv8 { (a >> 2) & 0x3F }
  function ByteOfSprite(a: bv8): bv8 { a & 3 }

  function OamAddrOf(n: bv8, m: bv8): bv8 { (n << 2) | m }

  lemma OamAddrParts(a: bv8)
    ensures OamAddrOf(SpriteOf(a), ByteOfSprite(a)) == a
  {
  }

  /** What one compare step (an even dot from 66 to 256) leaves: the
      evaluation state, the secondary OAM, OAMADDR and whether it found an
      overflow. */
  datatype Compared = Compared(eval: Evaluation, secondary: seq<bv8>, oamAddr: bv8, overflow: bool)

  /** The sprite after `n`, wrapping after 63. */
  function NextSprite(n: bv8): (r: bv8)
    requires n < 64
    ensures r < 64 && (r == 0 <==> n == 63)
  {
    (n + 1) % 64
  }

  /** One compare step, on the byte latched on the odd dot before it.
      While evaluation is done only the sprite number moves. Otherwise a
      byte is copied while secondary OAM has room: the Y byte of a sprite
      that covers the scanline starts a four-byte copy, one that does not is
      overwritten by the next sprite's. With secondary OAM full, a covering
      sprite sets overflow and ends evaluation; otherwise both the sprite
      number and the byte number move (the hardware's diagonal scan). On dot
      66 the in-range verdict on OAM sprite 0 is kept for the next line. */
  function Compare(e: Evaluation, secondary: seq<bv8>, oamAddr: bv8, scanline: int, size: nat, dot: int)
    : (r: Compared)
    requires |secondary| == 32 && e.secondaryAddr <= 0x20
    ensures |r.secondary| == 32 && r.eval.secondaryAddr <= 0x20 && r.eval.latch == e.latch
  {
    var n := SpriteOf(oamAddr);
    var m := ByteOfSprite(oamAddr);
    if e.done then
      Compared(e, secondary, OamAddrOf(n + 1, m), false)
    else
      var inRange := e.inRange || Covers(scanline, e.latch, size);
      var e := e.(zeroNext := if dot == 66 then inRange else e.zeroNext);
      if e.secondaryAddr < 0x20 then
        var secondary := secondary[e.secondaryAddr := e.latch];
        if inRange then
          if m + 1 == 4 then
            var n' := NextSprite(n);
            Compared(e.(secondaryAddr := e.secondaryAddr + 1, inRange := false, done := n' == 0),
                     secondary, OamAddrOf(n', 0), false)
          else
            Compared(e.(secondaryAddr := e.secondaryAddr + 1, inRange := true), secondary, OamAddrOf(n, m + 1), false)
        else
          var n' := NextSprite(n);
          Compared(e.(inRange := false, done := n' == 0), secondary, OamAddrOf(n', m), false)
      else if inRange then
        Compared(e.(inRange := true, done := true), secondary, oamAddr, true)
      else
        var n' := NextSprite(n);
        Compared(e.(inRange := false, done := n' == 0), secondary, OamAddrOf(n', (m + 1) % 4), false)
  }

  /** Once evaluation is done a compare only moves OAMADDR on by one
      sprite. */
  lemma CompareWhenDone(e: Evaluation, secondary: seq<bv8>, oamAddr: bv8, scanline: int, size: nat, dot: int)
    requires |secondary| == 32 && e.secondaryAddr <= 0x20 && e.done
    ensures Compare(e, secondary, oamAddr, scanline, size, dot) == Compared(e, secondary, oamAddr + 4, false)
  {
    OamAddrParts(oamAddr);
    OamAddrNextSprite(SpriteOf(oamAddr), ByteOfSprite(oamAddr));
  }

  lemma OamAddrNextSprite(n: bv8, m: bv8)
    requires m < 4
    ensures OamAddrOf(n + 1, m) == OamAddrOf(n, m) + 4
  {
  }

  /** Overflow is found exactly when secondary OAM is full and the byte
      compared belongs to a covering sprite; it ends evaluation and leaves
      OAMADDR and secondary OAM alone. */
  lemma CompareOverflow(e: Evaluation, secondary: seq<bv8>, oamAddr: bv8, scanline: int, size: nat, dot: int)
    requires |secondary| == 32 && e.secondaryAddr <= 0x20
    ensures var r := Compare(e, secondary, oamAddr, scanline, size, dot);
            r.overflow <==> !e.done && e.secondaryAddr == 0x20 && (e.inRange || Covers(scanline, e.latch, size))
    ensures var r := Compare(e, secondary, oamAddr, scanline, size, dot);
            r.overflow ==> r.eval.done && r.oamAddr == oamAddr && r.secondary == secondary
  {
  }

  /** Secondary OAM changes only at its next free byte, which takes the
      latched byte whenever evaluation runs and there is room; that free
      byte moves on exactly when the byte belonged to a covering sprite. */
  lemma CompareSecondary(e: Evaluation, secondary: seq<bv8>, oamAddr: bv8, scanline: int, size: nat, dot: int)
    requires |secondary| == 32 && e.secondaryAddr <= 0x20
    ensures var r := Compare(e, secondary, oamAddr, scanline, size, dot);
            r.secondary == if !e.done && e.secondaryAddr < 0x20 then secondary[e.secondaryAddr := e.latch] else secondary
    ensures var r := Compare(e, secondary, oamAddr, scanline, size, dot);
            r.eval.secondaryAddr
              == if !e.done && e.secondaryAddr < 0x20 && (e.inRange || Covers(scanline, e.latch, size))
                 then e.secondaryAddr + 1 else e.secondaryAddr
  {
  }

  /** Dot 66 records whether OAM sprite 0 covers the next line; once done,
      evaluation stays done. */
  lemma CompareZeroAndDone(e: Evaluation, secondary: seq<bv8>, oamAddr: bv8, scanline: int, size: nat, dot: int)
    requires |secondary| == 32 && e.secondaryAddr <= 0x20
    ensures var r := Compare(e, secondary, oamAddr, scanline, size, dot);
            !e.done ==> r.eval.zeroNext == (if dot == 66 then e.inRange || Covers(scanline, e.latch, size) else e.zeroNext)
    ensures var r := Compare(e, secondary, oamAddr, scanline, size, dot);
            e.done ==> r.eval.done
  {
  }

  /** A sprite that does not cover the scanline, met with room to spare,
      costs one compare: evaluation moves to the next sprite, keeping the
      byte number, and secondary OAM's next free byte stays where it was. */
  lemma CompareSkipsSprite(e: Evaluation, secondary: seq<bv8>, oamAddr: bv8, scanline: int, size: nat, dot: int)
    requires |secondary| == 32 && e.secondaryAddr < 0x20
    requires !e.done && !e.inRange && !Covers(scanline, e.latch, size)
    ensures var r := Compare(e, secondary, oamAddr, scanline, size, dot);
            && SpriteOf(r.oamAddr) == NextSprite(SpriteOf(oamAddr)) && ByteOfSprite(r.oamAddr) == ByteOfSprite(oamAddr)
            && r.eval.done == (SpriteOf(oamAddr) == 63)
            && r.eval.secondaryAddr == e.secondaryAddr && !r.eval.inRange
  {
    var n' := NextSprite(SpriteOf(oamAddr));
    OamAddrSplit(n', ByteOfSprite(oamAddr));
  }

  /** A covering sprite met with room is copied byte by byte: each compare
      copies one byte and moves to the next byte of the same sprite, the
      fourth moves to the next sprite's Y byte. */
  lemma CompareCopiesSprite(e: Evaluation, secondary: seq<bv8>, oamAddr: bv8, scanline: int, size: nat, dot: int)
    requires |secondary| == 32 && e.secondaryAddr < 0x20
    requires !e.done && (e.inRange || Covers(scanline, e.latch, size))
    ensures var r := Compare(e, secondary, oamAddr, scanline, size, dot);
            && r.secondary[e.secondaryAddr] == e.latch
            && (ByteOfSprite(oamAddr) < 3 ==> r.oamAddr == oamAddr + 1 && r.eval.inRange)
            && (ByteOfSprite(oamAddr) == 3 ==>
                  SpriteOf(r.oamAddr) == NextSprite(SpriteOf(oamAddr)) && ByteOfSprite(r.oamAddr) == 0
                  && !r.eval.inRange && r.eval.done == (SpriteOf(oamAddr) == 63))
  {
    var n := SpriteOf(oamAddr);
    var m := ByteOfSprite(oamAddr);
    OamAddrParts(oamAddr);
    if m < 3 {
      OamAddrNextByte(n, m);
    } else {
      OamAddrSplit(NextSprite(n), 0);
    }
  }

  lemma OamAddrSplit(n: bv8, m: bv8)
    requires n < 64 && m < 4
    ensures SpriteOf(OamAddrOf(n, m)) == n && ByteOfSprite(OamAddrOf(n, m)) == m
  {
  }

  lemma OamAddrNextByte(n: bv8, m: bv8)
    requires n < 64 && m < 3
    ensures OamAddrOf(n, m + 1) == OamAddrOf(n, m) + 1
  {
  }

  /** The part of the PPU sprite evaluation works on. */
  datatype Evaluator = Evaluator(eval: Evaluation, secondary: seq<bv8>, oamAddr: bv8, status: bv8)

  predicate EvaluatorValid(v: Evaluator) {
    |v.secondary| == 32 && v.eval.secondaryAddr <= 0x20 && v.status & 0x1F == 0
  }

  /** Sprite evaluation on dot `dot` (1-256) of a visible line: dots 1-64
      fill secondary OAM with $FF two dots per byte, dot 65 starts the scan
      at OAMADDR, odd dots latch the OAM byte at OAMADDR and even dots
      compare it. */
  function EvaluateDot(v: Evaluator, oam: seq<bv8>, scanline: int, size: nat, dot: int): (r: Evaluator)
    requires EvaluatorValid(v) && |oam| == 256 && 1 <= dot <= 256
    ensures EvaluatorValid(r)
    ensures dot < 65 ==> r == v.(secondary := v.secondary[(dot - 1) / 2 := 0xFF])
    ensures dot == 65 ==> r == v.(eval := v.eval.(secondaryAddr := 0, inRange := false, done := false,
                                                  latch := oam[OamIndex(v.oamAddr)]))
    ensures dot > 65 && dot % 2 == 1 ==> r == v.(eval := v.eval.(latch := oam[OamIndex(v.oamAddr)]))
    ensures r.status & StatusOverflow == StatusOverflow
        <==> v.status & StatusOverflow == StatusOverflow
             || (dot > 65 && dot % 2 == 0 && !v.eval.done && v.eval.secondaryAddr == 0x20
                 && (v.eval.inRange || Covers(scanline, v.eval.latch, size)))
  {
    if dot < 65 then v.(secondary := v.secondary[(dot - 1) / 2 := 0xFF])
    else if dot == 65 then
      v.(eval := v.eval.(secondaryAddr := 0, inRange := false, done := false, latch := oam[OamIndex(v.oamAddr)]))
    else if dot % 2 == 1 then v.(eval := v.eval.(latch := oam[OamIndex(v.oamAddr)]))
    else
      var c := Compare(v.eval, v.secondary, v.oamAddr, scanline, size, dot);
      Evaluator(c.eval, c.secondary, c.oamAddr, SetOverflow(v.status, c.overflow))
  }

  /** PPUSTATUS with the overflow flag raised when `overflow`. */
  function SetOverflow(status: bv8, overflow: bool): (r: bv8)
    requires status & 0x1F == 0
    ensures r & 0x1F == 0 && r & 0xC0 == status & 0xC0
    ensures r & StatusOverflow == StatusOverflow <==> overflow || status & StatusOverflow == StatusOverflow
  {
    if overflow then status | StatusOverflow else status
  }

  // ---------------------------------------------------------------------
  // Pattern fetch

  /** The pattern table address of a sprite's tile: for 8x16 sprites bit 0
      of the tile number picks the table and the tile pair starts at the
      even tile; for 8x8 sprites PPUCTRL bit 3 picks the table. */
  function TileAddr(ctrl: bv8, tile: bv8): (r: bv16)
    ensures r < 0x2000 && r % 16 == 0
    ensures SpriteSize(ctrl) == 16 ==> r == (if tile & 1 == 1 then 0x1000 else 0) + ((tile as bv16) & 0xFFFE) * 16
    ensures SpriteSize(ctrl) == 8 ==> r == (if ctrl & CtrlSpriteBank1000 == CtrlSpriteBank1000 then 0x1000 else 0) + (tile as bv16) * 16
  {
    if SpriteSize(ctrl) == 16 then
      (if tile & 1 == 1 then 0x1000 else 0) + ((tile as bv16) & !1) * 16
    else
      (if ctrl & CtrlSpriteBank1000 == CtrlSpriteBank1000 then 0x1000 else 0) + (tile as bv16) * 16
  }

  /** The row of the sprite drawn on `scanline`: the distance from its top
      (the source subtracts in 16 bits, which agrees mod 8 and mod 16),
      counted from the bottom when it is flipped vertically. */
  function SpriteRow(scanline: int, y: bv8, size: nat, flipVert: bool): (row: nat)
    requires size == 8 || size == 16
    ensures row < size
    ensures Covers(scanline, y, size) && !flipVert ==> row == scanline - y as int
    ensures Covers(scanline, y, size) && flipVert ==> row == size - 1 - (scanline - y as int)
  {
    var offset := (scanline - y as int) % size;
    if flipVert then size - offset - 1 else offset
  }

  /** Subtracting in 16 bits and then taking the row modulo the sprite
      height gives the plain remainder. */
  lemma WrappingRow(scanline: int, y: bv8, size: nat)
    requires size == 8 || size == 16
    ensures ((scanline - y as int) % 0x10000) % size == (scanline - y as int) % size
  {
    var d := scanline - y as int;
    var a := d % 0x10000;
    var k := if size == 8 then (d / 0x10000) * 0x2000 else (d / 0x10000) * 0x1000;
    assert d == k * size + a;
    Distribute(a / size, k, size);
    DivModOf(d, size, a / size + k, a % size);
  }

  /** The address of the low pattern byte of row `row`, as written: rows
      above 8 go to the second tile of the pair (16 bytes on), but row 8
      itself stays in the first tile. */
  function RowAddrAsWritten(tileAddr: bv16, row: bv8): (r: bv16)
    requires tileAddr < 0x2000 && row < 16
  {
    if row > 8 then tileAddr + 16 + ((row - 8) as bv16) else tileAddr + (row as bv16)
  }

  /** For an 8x16 sprite, row 8 (the first row of its lower tile) is read
      from byte 8 of the upper tile, which is the upper tile's high plane
      of row 0, instead of byte 0 of the lower tile. */
  lemma RowAddrAsWrittenMissesRow8(tileAddr: bv16)
    requires tileAddr < 0x2000
    ensures RowAddrAsWritten(tileAddr, 8) == tileAddr + 8
    ensures RowAddrAsWritten(tileAddr, 8) != tileAddr + 16
  {
  }

  /** The address of the low pattern byte of row `row`: rows 0-7 are in
      the first tile, rows 8-15 in the second, 16 bytes on; the high byte
      is always 8 further. */
  function RowAddr(tileAddr: bv16, row: bv8): (r: bv16)
    requires tileAddr < 0x2000 && row < 16
    ensures r == tileAddr + ((row as bv16) >> 3) * 16 + ((row as bv16) & 7)
  {
    if row >= 8 then tileAddr + 16 + ((row - 8) as bv16) else tileAddr + (row as bv16)
  }

  /** The two addresses differ only on row 8. */
  lemma RowAddrAgreesElsewhere(tileAddr: bv16, row: bv8)
    requires tileAddr < 0x2000 && row < 16 && row != 8
    ensures RowAddrAsWritten(tileAddr, row) == RowAddr(tileAddr, row)
  {
  }

  // ---------------------------------------------------------------------
  // Pixel selection

  /** The 2-bit pattern of sprite `s` at column `x`: 0 (transparent) off
      the sprite's eight columns, the bit pair of the column otherwise,
      mirrored when the sprite is flipped horizontally. */
  function SpritePattern(s: Sprite, x: int): (r: bv8)
    ensures r < 4
    ensures !(s.x as int <= x < s.x as int + 8) ==> r == 0
  {
    if s.x as int <= x < s.x as int + 8 then
      var offset := x - s.x as int;
      var column := if s.attr & AttrFlipHoriz == AttrFlipHoriz then 7 - offset else offset;
      PlanePair(s.high, s.low, column)
    else 0
  }

  /** Bit `7 - column` of the high and low planes, as a 2-bit value. */
  function PlanePair(high: bv8, low: bv8, column: int): (r: bv8)
    requires 0 <= column < 8
    ensures r < 4
    ensures (r & 2 == 2) == (high & (0x80 >> column as bv8) != 0)
    ensures (r & 1 == 1) == (low & (0x80 >> column as bv8) != 0)
  {
    var shift := (7 - column) as bv8;
    (((high >> shift) & 1) << 1) | ((low >> shift) & 1)
  }

  /** The palette index a sprite pixel selects: the sprite palettes
      occupy entries 16-31, four colours each. */
  function SpritePalette(s: Sprite, pattern: bv8): (r: bv8)
    requires 0 < pattern < 4
    ensures 16 <= r < 32 && r & 3 == pattern && (r >> 2) & 3 == s.attr & 3
  {
    (((s.attr & 3) << 2) | pattern) + 16
  }

  /** The sprite result of one column: palette index (0 when no sprite
      shows) and whether the sprite is behind the background. */
  datatype SpritePixel = SpritePixel(palette: bv8, behind: bool)

  const NoSpritePixel := SpritePixel(0, true)

  function Shown(s: Sprite, pattern: bv8): SpritePixel
    requires 0 < pattern < 4
  {
    SpritePixel(SpritePalette(s, pattern), s.attr & AttrPriorityBehind == AttrPriorityBehind)
  }

  /** The scan as written: sprites `i - 1` down to 0, each opaque one
      overwriting the result. */
  function Scan(sprites: seq<Sprite>, i: nat, x: int, acc: SpritePixel): SpritePixel
    requires i <= |sprites|
    decreases i
  {
    if i == 0 then acc
    else
      var p := SpritePattern(sprites[i - 1], x);
      Scan(sprites, i - 1, x, if p != 0 then Shown(sprites[i - 1], p) else acc)
  }

  /** The lowest-numbered sprite below `n` that is opaque at `x`, if any:
      the sprite in front. */
  function Front(sprites: seq<Sprite>, n: nat, x: int): (r: Option<nat>)
    requires n <= |sprites|
    ensures r.Some? ==> r.value < n && SpritePattern(sprites[r.value], x) != 0
    ensures r.Some? ==> forall j :: 0 <= j < r.value ==> SpritePattern(sprites[j], x) == 0
    ensures r.None? ==> forall j :: 0 <= j < n ==> SpritePattern(sprites[j], x) == 0
    decreases n
  {
    if n == 0 then None
    else
      var r := Front(sprites, n - 1, x);
      if r.Some? then r
      else if SpritePattern(sprites[n - 1], x) != 0 then Some(n - 1)
      else None
  }

  /** The reverse scan shows the frontmost opaque sprite: the lowest-numbered
      one, or nothing. */
  lemma {:induction false} ScanShowsFront(sprites: seq<Sprite>, i: nat, x: int, acc: SpritePixel)
    requires i <= |sprites|
    ensures var f := Front(sprites, i, x);
            Scan(sprites, i, x, acc)
              == if f.Some? then Shown(sprites[f.value], SpritePattern(sprites[f.value], x)) else acc
    decreases i
  {
    if i > 0 {
      var p := SpritePattern(sprites[i - 1], x);
      ScanShowsFront(sprites, i - 1, x, if p != 0 then Shown(sprites[i - 1], p) else acc);
    }
  }

  /** What is drawn: the sprite when it is opaque and either the background
      is transparent or the sprite is in front of it, the background
      otherwise. */
  function Priority(bg: bv8, fg: SpritePixel): (index: bv8)
    ensures fg.palette == 0 ==> index == bg
    ensures bg == 0 ==> index == fg.palette
    ensures fg.palette != 0 && bg != 0 ==> index == (if fg.behind then bg else fg.palette)
  {
    if fg.palette != 0 && (bg == 0 || !fg.behind) then fg.palette else bg
  }
}
