/** What every cartridge mapper shares (covnes/src/nes/mappers/common.rs):
    nametable mirroring onto the console's 2 KB of VRAM, and the storage kinds
    a cartridge carries (CHR ROM or CHR RAM, optional 8 KB PRG RAM). */
module MapperCommon {
  import opened Common
  import RomFiles

  /** How the four logical nametables at $2000, $2400, $2800 and $2C00 are
      folded onto the two physical 1 KB pages of console VRAM. */
  datatype MirrorMode = OneScreenLower | OneScreenHigher | Vertical | Horizontal

  /** Fixed mirroring of a two-screen cartridge; four-screen VRAM is not
      supported and aborts with the mapper's message. */
  function FixedMirroring(mirroring: RomFiles.Mirroring, message: string): (r: Outcome<MirrorMode>)
    ensures r.Ok? <==> !mirroring.FourScreen?
    ensures !r.Err?
    ensures r.Ok? ==> (r.value == Horizontal <==> mirroring.Horizontal?)
    ensures r.Ok? ==> (r.value == Vertical <==> mirroring.Vertical?)
  {
    match mirroring
    case Horizontal => Ok(Horizontal)
    case Vertical => Ok(Vertical)
    case FourScreen => Panic(message)
  }

  /** Size of the console's nametable RAM. */
  const VramSize: nat := 0x800

  /** A CPU or PPU bus address as the cartridge sees it: the source's `u16`,
      widened to `usize` before any arithmetic. */
  type Address = a: int | 0 <= a <= 0xFFFF

  /** Index of the VRAM cell behind a PPU address. $3000-$3FFF is an image of
      $2000-$2FFF; anything outside $2000-$3FFF aborts. */
  function VramIndex(mode: MirrorMode, a: int): (r: Outcome<nat>)
    ensures r.Ok? <==> 0x2000 <= a <= 0x3FFF
    ensures !r.Err?
    ensures r.Ok? ==> r.value < VramSize
  {
    if 0x3000 <= a <= 0x3FFF then
      VramIndex(mode, a - 0x1000)
    else if !(0x2000 <= a <= 0x2FFF) then
      Panic("Not in VRAM range")
    else
      var offset :=
        if a <= 0x23FF then a - 0x2000
        else if a <= 0x27FF then a - 0x2400
        else if a <= 0x2BFF then a - 0x2800
        else a - 0x2C00;
      var base: nat :=
        match mode
        case OneScreenLower => 0
        case OneScreenHigher => 0x400
        case _ =>
          if a <= 0x23FF then 0
          else if a <= 0x27FF then (if mode == Horizontal then 0 else 0x400)
          else if a <= 0x2BFF then (if mode == Horizontal then 0x400 else 0)
          else 0x400;
      Ok(base + offset)
  }

  /** Reference layout: which physical page logical nametable `table` (0-3)
      lands on. Vertical mirroring pairs tables 0/2 and 1/3 (side-by-side
      scrolling), horizontal mirroring pairs 0/1 and 2/3. */
  function PageOf(mode: MirrorMode, table: nat): (page: nat)
    requires table < 4
    ensures page < 2
  {
    match mode
    case OneScreenLower => 0
    case OneScreenHigher => 1
    case Vertical => table % 2
    case Horizontal => table / 2
  }

  /** The logical nametable (0-3) an address in $2000-$3FFF falls in. */
  function TableOf(a: int): nat
    requires 0x2000 <= a <= 0x3FFF
  {
    ((a - 0x2000) / 0x400) % 4
  }

  /** Every address of $2000-$3FFF lands in the page its logical table is
      mirrored onto, at its offset within the table. */
  lemma VramIndexLayout(mode: MirrorMode, a: int)
    requires 0x2000 <= a <= 0x3FFF
    ensures VramIndex(mode, a) == Ok(PageOf(mode, TableOf(a)) * 0x400 + a % 0x400)
  {
    var b := if a >= 0x3000 then a - 0x1000 else a;
    assert VramIndex(mode, a) == VramIndex(mode, b);
    var k := (b - 0x2000) / 0x400;
    var off := (b - 0x2000) % 0x400;
    var q := if a >= 0x3000 then k + 4 else k;
    DivModOf(a - 0x2000, 0x400, q, off);
    DivModOf(a, 0x400, q + 8, off);
    assert TableOf(a) == k;
    TableLayout(mode, b, k);
  }

  /** The cell behind an address of $2000-$2FFF, given its logical table. */
  lemma TableLayout(mode: MirrorMode, a: int, k: nat)
    requires k < 4 && 0x2000 + k * 0x400 <= a < 0x2400 + k * 0x400
    ensures VramIndex(mode, a) == Ok(PageOf(mode, k) * 0x400 + (a - 0x2000 - k * 0x400))
  {
  }

  lemma VramAliasBelow(mode: MirrorMode, a: int)
    requires 0x3000 <= a <= 0x3FFF
    ensures VramIndex(mode, a) == VramIndex(mode, a - 0x1000)
  {
  }

  lemma HorizontalSharing(k: int)
    requires 0 <= k < 0x400
    ensures VramIndex(Horizontal, 0x2000 + k) == VramIndex(Horizontal, 0x2400 + k) == Ok(k)
    ensures VramIndex(Horizontal, 0x2800 + k) == VramIndex(Horizontal, 0x2C00 + k) == Ok(0x400 + k)
  {
    VramIndexLayout(Horizontal, 0x2000 + k);
    VramIndexLayout(Horizontal, 0x2400 + k);
    VramIndexLayout(Horizontal, 0x2800 + k);
    VramIndexLayout(Horizontal, 0x2C00 + k);
  }

  lemma VerticalSharing(k: int)
    requires 0 <= k < 0x400
    ensures VramIndex(Vertical, 0x2000 + k) == VramIndex(Vertical, 0x2800 + k) == Ok(k)
    ensures VramIndex(Vertical, 0x2400 + k) == VramIndex(Vertical, 0x2C00 + k) == Ok(0x400 + k)
  {
    VramIndexLayout(Vertical, 0x2000 + k);
    VramIndexLayout(Vertical, 0x2400 + k);
    VramIndexLayout(Vertical, 0x2800 + k);
    VramIndexLayout(Vertical, 0x2C00 + k);
  }

  lemma OneScreen(a: int)
    requires 0x2000 <= a <= 0x3FFF
    ensures VramIndex(OneScreenLower, a) == Ok(a % 0x400)
    ensures VramIndex(OneScreenHigher, a) == Ok(0x400 + a % 0x400)
  {
    VramIndexLayout(OneScreenLower, a);
    VramIndexLayout(OneScreenHigher, a);
  }

  /** Nametable read through the mirroring; the VRAM slice must hold the
      cell, as indexing it does in the source. */
  function NametableRead(mode: MirrorMode, vram: seq<bv8>, addr: int): (r: Outcome<bv8>)
    ensures |vram| == VramSize ==> (r.Ok? <==> 0x2000 <= addr <= 0x3FFF)
  {
    var i :- VramIndex(mode, addr);
    if i < |vram| then Ok(vram[i]) else Panic("index out of bounds")
  }

  function NametableWrite(mode: MirrorMode, vram: seq<bv8>, addr: int, v: bv8): (r: Outcome<seq<bv8>>)
    ensures r.Ok? ==> |r.value| == |vram|
    ensures |vram| == VramSize ==> (r.Ok? <==> 0x2000 <= addr <= 0x3FFF)
  {
    var i :- VramIndex(mode, addr);
    if i < |vram| then Ok(vram[i := v]) else Panic("index out of bounds")
  }

  /** A nametable write is seen by every address mirrored onto the same cell
      and by no other. */
  lemma NametableWriteRead(mode: MirrorMode, vram: seq<bv8>, a: int, b: int, v: bv8)
    requires |vram| == VramSize
    requires 0x2000 <= a <= 0x3FFF && 0x2000 <= b <= 0x3FFF
    ensures NametableWrite(mode, vram, a, v).Ok?
    ensures NametableRead(mode, NametableWrite(mode, vram, a, v).value, b)
         == if VramIndex(mode, a) == VramIndex(mode, b) then Ok(v) else NametableRead(mode, vram, b)
  {
  }

  /** Pattern memory of a cartridge: read-only ROM from the file, or RAM. */
  datatype Chr = ChrRom(rom: seq<bv8>) | ChrRam(ram: seq<bv8>) {
    function Bytes(): seq<bv8> {
      if ChrRom? then rom else ram
    }
  }

  /** Zero-filled memory of `n` bytes (`vec![Cell::new(0); n]`). */
  function Zeros(n: nat): (z: seq<bv8>)
    ensures |z| == n
    ensures forall i :: 0 <= i < n ==> z[i] == 0
  {
    seq(n, _ => 0)
  }

  function ChrRead(chr: Chr, i: int): (r: Outcome<bv8>)
    ensures r.Ok? <==> 0 <= i < |chr.Bytes()|
    ensures !r.Err?
  {
    if 0 <= i < |chr.Bytes()| then Ok(chr.Bytes()[i]) else Panic("index out of bounds")
  }

  /** CHR ROM ignores writes without looking at the index; CHR RAM stores. */
  function ChrWrite(chr: Chr, i: int, v: bv8): (r: Outcome<Chr>)
    ensures chr.ChrRom? ==> r == Ok(chr)
    ensures chr.ChrRam? ==> (r.Ok? <==> 0 <= i < |chr.ram|)
    ensures r.Ok? ==> r.value.ChrRam? == chr.ChrRam? && |r.value.Bytes()| == |chr.Bytes()|
  {
    match chr
    case ChrRom(_) => Ok(chr)
    case ChrRam(ram) => if 0 <= i < |ram| then Ok(ChrRam(ram[i := v])) else Panic("index out of bounds")
  }

  lemma ChrWriteRead(chr: Chr, i: int, j: int, v: bv8)
    requires chr.ChrRam? && 0 <= i < |chr.ram| && 0 <= j < |chr.ram|
    ensures ChrWrite(chr, i, v).Ok?
    ensures ChrRead(ChrWrite(chr, i, v).value, j) == if i == j then Ok(v) else ChrRead(chr, j)
  {
  }

  /** Size of the optional PRG RAM at $6000-$7FFF. */
  const PrgRamSize: nat := 0x2000

  predicate PrgRamValid(ram: Option<seq<bv8>>) {
    ram.Some? ==> |ram.value| == PrgRamSize
  }

  /** PRG RAM for a cartridge that asks for it, else none. */
  function NewPrgRam(provide: bool): (ram: Option<seq<bv8>>)
    ensures PrgRamValid(ram) && (ram.Some? <==> provide)
  {
    if provide then Some(Zeros(PrgRamSize)) else None
  }

  /** A read of PRG RAM at `off` bytes past $6000: the stored byte, or 0 when
      the cartridge has no PRG RAM. */
  function PrgRamRead(ram: Option<seq<bv8>>, off: int): (v: bv8)
    requires PrgRamValid(ram) && 0 <= off < PrgRamSize
    ensures ram.None? ==> v == 0
  {
    match ram
    case None => 0
    case Some(r) => r[off]
  }

  /** A write of PRG RAM: stored when there is PRG RAM, else ignored. */
  function PrgRamWrite(ram: Option<seq<bv8>>, off: int, v: bv8): (r: Option<seq<bv8>>)
    requires PrgRamValid(ram) && 0 <= off < PrgRamSize
    ensures PrgRamValid(r) && r.Some? == ram.Some?
    ensures ram.None? ==> r == ram
  {
    match ram
    case None => None
    case Some(m) => Some(m[off := v])
  }

  lemma PrgRamWriteRead(ram: Option<seq<bv8>>, i: int, j: int, v: bv8)
    requires PrgRamValid(ram) && 0 <= i < PrgRamSize && 0 <= j < PrgRamSize
    ensures PrgRamRead(PrgRamWrite(ram, i, v), j)
         == if ram.Some? && i == j then v else PrgRamRead(ram, j)
  {
  }

  /** The result of a PPU-side write: the cartridge (its CHR RAM may change)
      and the console VRAM (its nametables may change). */
  datatype PpuWritten<C> = PpuWritten(cart: C, vram: seq<bv8>)

  /** Bank `b` of a memory of `n` banks of `size` bytes, selected by taking
      the whole offset modulo the memory size, is bank `b % n`. */
  lemma BankWrap(b: nat, n: nat, size: nat, off: int)
    requires 0 < n && 0 <= off < size
    ensures (b * size + off) % (n * size) == (b % n) * size + off
  {
    var q := b / n;
    var r := b % n;
    Distribute(q * n, r, size);
    assert (q * n) * size == q * (n * size);
    Distribute(n - 1 - r, r + 1, size);
    assert (n - 1 - r) * size >= 0;
    DivModOf(b * size + off, n * size, q, r * size + off);
  }
}
