/** The PPU's internal VRAM address `v` (and its shadow `t`) read as the
    scroll position it encodes (covnes/src/nes/ppu.rs): coarse X in bits
    0-4, coarse Y in bits 5-9, the nametable select in bits 10-11 and fine Y
    in bits 12-14. The increments and copies the renderer performs are
    stated field by field. */
module PpuScroll {

  /** The addresses the PPU keeps are 15 bits wide. */
  predicate Addr15(v: bv16) {
    v < 0x8000
  }

  function CoarseX(v: bv16): bv16 { v & 0x1F }
  function CoarseY(v: bv16): bv16 { (v >> 5) & 0x1F }
  /** Horizontal nametable select. */
  function NtX(v: bv16): bool { v & 0x400 != 0 }
  /** Vertical nametable select. */
  function NtY(v: bv16): bool { v & 0x800 != 0 }
  function FineY(v: bv16): bv16 { (v >> 12) & 7 }

  /** The five fields fix a 15-bit address. */
  lemma FieldsDetermine(a: bv16, b: bv16)
    requires Addr15(a) && Addr15(b)
    requires CoarseX(a) == CoarseX(b) && CoarseY(a) == CoarseY(b)
    requires NtX(a) == NtX(b) && NtY(a) == NtY(b) && FineY(a) == FineY(b)
    ensures a == b
  {
  }

  /** Coarse X increment: after column 31 comes column 0 of the
      horizontally adjacent nametable. Nothing happens with rendering off. */
  function HScroll(rendering: bool, v: bv16): (r: bv16)
    ensures !rendering ==> r == v
    ensures rendering ==> CoarseY(r) == CoarseY(v) && NtY(r) == NtY(v) && FineY(r) == FineY(v)
    ensures rendering && CoarseX(v) == 31 ==> CoarseX(r) == 0 && NtX(r) == !NtX(v)
    ensures rendering && CoarseX(v) != 31 ==> CoarseX(r) == CoarseX(v) + 1 && NtX(r) == NtX(v)
    ensures Addr15(v) ==> Addr15(r)
  {
    if !rendering then v
    else if v & 0x1F == 31 then (v & !0x1F) ^ 0x400
    else v + 1
  }

  /** Y increment: fine Y counts up to 7, then coarse Y advances; row 29 is
      the last of a nametable and moves to the vertically adjacent one,
      while rows 30-31 (attribute memory) wrap to 0 in the same nametable. */
  function VScroll(rendering: bool, v: bv16): (r: bv16)
    ensures !rendering ==> r == v
  {
    if !rendering then v
    else if v & 0x7000 != 0x7000 then v + 0x1000
    else
      var v1 := v & !0x7000;
      var y := (v1 & 0x03E0) >> 5;
      var (y', v2) := if y == 29 then (0, v1 ^ 0x0800) else if y == 31 then (0, v1) else (y + 1, v1);
      (v2 & !0x03E0) | (y' << 5)
  }

  /** Within a tile row only fine Y moves. */
  lemma VScrollFine(v: bv16)
    requires FineY(v) != 7
    ensures var r := VScroll(true, v);
            FineY(r) == FineY(v) + 1 && CoarseY(r) == CoarseY(v) && NtY(r) == NtY(v)
  {
    assert v & 0x7000 != 0x7000;
  }

  /** The Y increment never touches the column, nor bit 15. */
  lemma VScrollKeepsColumn(v: bv16)
    ensures var r := VScroll(true, v);
            CoarseX(r) == CoarseX(v) && NtX(r) == NtX(v) && (Addr15(v) ==> Addr15(r))
  {
  }

  /** After the last row of a tile, fine Y restarts and coarse Y moves on. */
  lemma VScrollCoarse(v: bv16)
    requires FineY(v) == 7
    ensures var r := VScroll(true, v);
            FineY(r) == 0
            && (CoarseY(v) == 29 ==> CoarseY(r) == 0 && NtY(r) == !NtY(v))
            && (CoarseY(v) == 31 ==> CoarseY(r) == 0 && NtY(r) == NtY(v))
            && (CoarseY(v) != 29 && CoarseY(v) != 31 ==> CoarseY(r) == CoarseY(v) + 1 && NtY(r) == NtY(v))
  {
    assert v & 0x7000 == 0x7000;
    var v1 := v & !0x7000;
    assert (v1 & 0x03E0) >> 5 == CoarseY(v);
  }

  /** hori(v) = hori(t): coarse X and the horizontal nametable come from `t`. */
  function HUpdate(rendering: bool, v: bv16, t: bv16): (r: bv16)
    ensures !rendering ==> r == v
    ensures rendering ==> CoarseX(r) == CoarseX(t) && NtX(r) == NtX(t)
    ensures rendering ==> CoarseY(r) == CoarseY(v) && NtY(r) == NtY(v) && FineY(r) == FineY(v)
    ensures Addr15(v) && Addr15(t) ==> Addr15(r)
  {
    if !rendering then v else (v & !0x041F) | (t & 0x41F)
  }

  /** vert(v) = vert(t): fine Y, coarse Y and the vertical nametable come
      from `t`. */
  function VUpdate(rendering: bool, v: bv16, t: bv16): (r: bv16)
    ensures !rendering ==> r == v
    ensures rendering ==> CoarseY(r) == CoarseY(t) && NtY(r) == NtY(t) && FineY(r) == FineY(t)
    ensures rendering ==> CoarseX(r) == CoarseX(v) && NtX(r) == NtX(v)
    ensures Addr15(v) && Addr15(t) ==> Addr15(r)
  {
    if !rendering then v else (v & !0x7BE0) | (t & 0x7BE0)
  }

  /** After both copies every scroll field of `v` is that of `t`. */
  lemma UpdatesCopyT(v: bv16, t: bv16)
    requires Addr15(v) && Addr15(t)
    ensures VUpdate(true, HUpdate(true, v, t), t) == t
  {
    FieldsDetermine(VUpdate(true, HUpdate(true, v, t), t), t);
  }

  /** The nametable byte of the tile `v` points at: $2000 plus the low 12
      bits, so the nametable select, coarse Y and coarse X are kept. */
  function NtAddr(v: bv16): (r: bv16)
    ensures 0x2000 <= r < 0x3000
    ensures CoarseX(r) == CoarseX(v) && CoarseY(r) == CoarseY(v) && NtX(r) == NtX(v) && NtY(r) == NtY(v)
  {
    0x2000 | (v & 0xFFF)
  }

  /** The attribute byte covering the tile `v` points at: entry
      (coarse Y / 4) * 8 + coarse X / 4 of the attribute table at $23C0 of
      the same nametable. */
  function AtAddr(v: bv16): (r: bv16)
    ensures r & 0xF3FF == 0x23C0 + (CoarseY(v) >> 2) * 8 + (CoarseX(v) >> 2)
    ensures r & 0x0C00 == v & 0x0C00
  {
    0x23C0 | (v & 0x0C00) | ((v >> 4) & 0x38) | ((v >> 2) & 0x07)
  }

  /** The two attribute bits of the tile's 16x16 quadrant: bit 1 of coarse Y
      picks the lower half of the byte's nibbles, bit 1 of coarse X the
      upper pair within the nibble. */
  function AttributeQuadrant(at: bv8, v: bv16): (r: bv8)
    ensures var q := (if v & 0x40 == 0x40 then 4 else 0) + (if v & 0x2 == 0x2 then 2 else 0);
            r & 3 == (at >> q) & 3
  {
    var a1 := if v & 0x40 == 0x40 then at >> 4 else at;
    if v & 0x2 == 0x2 then a1 >> 2 else a1
  }

  /** The pattern byte address of the fetched tile's row: table $1000 when
      `bgTable1000`, 16 bytes per tile, row fine Y. */
  function BgAddr(bgTable1000: bool, tile: bv8, v: bv16): (r: bv16)
    ensures r < 0x2000
    ensures r & 0xF == FineY(v) && r & 7 == FineY(v)
    ensures (r >> 4) & 0xFF == tile as bv16
    ensures (r & 0x1000 != 0) == bgTable1000
  {
    (if bgTable1000 then 0x1000 else 0) + (tile as bv16) * 16 + ((v & 0x7000) >> 12)
  }
}
