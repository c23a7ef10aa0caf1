/** Mapper 0, NROM (covnes/src/nes/mappers/nrom.rs): 16 KB or 32 KB of PRG ROM
    at $8000 (16 KB mirrored at $C000), optional PRG RAM at $6000, 8 KB of
    CHR ROM or CHR RAM, fixed horizontal or vertical mirroring. Only the
    default build is modelled: the extra panics of the `pedantic_af`
    configuration are not. */
module Nrom {
  import opened Common
  import opened MapperCommon
  import RomFiles

  const ChrSize: nat := 8192

  datatype Nrom = Nrom(
    mirroring: MirrorMode,
    prgRom: seq<bv8>,
    chr: Chr,
    mirrorPrgRom: bool,
    prgRam: Option<seq<bv8>>)

  /** What `from_rom` guarantees about every NROM it builds. */
  predicate Valid(m: Nrom) {
    && (|m.prgRom| == 16384 || |m.prgRom| == 32768)
    && m.mirrorPrgRom == (|m.prgRom| == 16384)
    && |m.chr.Bytes()| == ChrSize
    && PrgRamValid(m.prgRam)
    && (m.mirroring == Horizontal || m.mirroring == Vertical)
  }

  function FromRom(rom: RomFiles.RomFile): (r: Outcome<Nrom>)
    ensures r.Err? <==> !(|rom.prgRom| == 16384 || |rom.prgRom| == 32768)
                        || (rom.chrRom.Some? && |rom.chrRom.value| != ChrSize)
    ensures r.Panic? <==> !r.Err? && rom.mirroring.FourScreen?
    ensures r.Ok? ==> Valid(r.value)
    ensures r.Ok? ==> r.value.prgRom == rom.prgRom && (r.value.prgRam.Some? <==> rom.providePrgRam)
    ensures r.Ok? ==> r.value.chr == if rom.chrRom.Some? then ChrRom(rom.chrRom.value) else ChrRam(Zeros(ChrSize))
  {
    var mirrorPrgRom := |rom.prgRom| == 16384;
    if !(|rom.prgRom| == 16384 || |rom.prgRom| == 16384 * 2) then
      Err("Badly sized prg_rom for mapper 0")
    else
      var prgRam := NewPrgRam(rom.providePrgRam);
      if rom.chrRom.Some? && |rom.chrRom.value| != ChrSize then
        Err("Badly sized chr_rom for mapper 0")
      else
        var chr := if rom.chrRom.Some? then ChrRom(rom.chrRom.value) else ChrRam(Zeros(ChrSize));
        var mirroring :- FixedMirroring(rom.mirroring, "Can't do FourScreen on mapper 0/NROM");
        Ok(Nrom(mirroring, rom.prgRom, chr, mirrorPrgRom, prgRam))
  }

  /** A CPU read of cartridge space; unmapped addresses and absent PRG RAM
      read as 0. */
  function ReadCpu(m: Nrom, addr: Address): (v: bv8)
    requires Valid(m)
    ensures addr < 0x6000 ==> v == 0
    ensures 0x6000 <= addr <= 0x7FFF ==> v == PrgRamRead(m.prgRam, addr - 0x6000)
  {
    var a := addr;
    if m.mirrorPrgRom then
      if 0x6000 <= a <= 0x7FFF then PrgRamRead(m.prgRam, a - 0x6000)
      else if 0x8000 <= a <= 0xBFFF then m.prgRom[a - 0x8000]
      else if 0xC000 <= a then m.prgRom[a - 0xC000]
      else 0
    else
      if 0x6000 <= a <= 0x7FFF then PrgRamRead(m.prgRam, a - 0x6000)
      else if 0x8000 <= a then m.prgRom[a - 0x8000]
      else 0
  }

  /** With 16 KB of PRG ROM, $C000-$FFFF is an image of $8000-$BFFF. */
  lemma MirroredPrg(m: Nrom, addr: Address)
    requires Valid(m) && |m.prgRom| == 16384 && 0xC000 <= addr
    ensures ReadCpu(m, addr) == ReadCpu(m, addr - 0x4000) == m.prgRom[addr - 0xC000]
  {
  }

  /** With 32 KB of PRG ROM, $8000-$FFFF maps straight onto it. */
  lemma LinearPrg(m: Nrom, addr: Address)
    requires Valid(m) && |m.prgRom| == 32768 && 0x8000 <= addr
    ensures ReadCpu(m, addr) == m.prgRom[addr - 0x8000]
  {
  }

  /** A CPU write reaches PRG RAM only; ROM space ignores it. */
  function WriteCpu(m: Nrom, addr: Address, v: bv8): (r: Nrom)
    requires Valid(m)
    ensures Valid(r)
    ensures r == m.(prgRam := r.prgRam)
    ensures !(0x6000 <= addr <= 0x7FFF) || m.prgRam.None? ==> r == m
  {
    var a := addr;
    if 0x6000 <= a <= 0x7FFF then m.(prgRam := PrgRamWrite(m.prgRam, a - 0x6000, v))
    else m
  }

  /** What a CPU write stores, a later CPU read sees, and nothing else
      changes. */
  lemma WriteThenReadCpu(m: Nrom, a: Address, b: Address, v: bv8)
    requires Valid(m)
    ensures ReadCpu(WriteCpu(m, a, v), b)
         == if 0x6000 <= a <= 0x7FFF && m.prgRam.Some? && a == b then v else ReadCpu(m, b)
  {
    if 0x6000 <= a <= 0x7FFF && 0x6000 <= b <= 0x7FFF {
      PrgRamWriteRead(m.prgRam, a - 0x6000, b - 0x6000, v);
    }
  }

  /** A PPU read: pattern memory below $2000, nametables through the
      mirroring above. The range is chosen on the address modulo $4000 but
      the unreduced address is used, so $4000 and above aborts. */
  function ReadPpu(m: Nrom, vram: seq<bv8>, addr: Address): (r: Outcome<bv8>)
    requires Valid(m)
    ensures |vram| == VramSize ==> (r.Ok? <==> addr < 0x4000)
    ensures addr < 0x2000 ==> r == Ok(m.chr.Bytes()[addr])
    ensures 0x2000 <= addr < 0x4000 ==> r == NametableRead(m.mirroring, vram, addr)
  {
    if addr % 0x4000 <= 0x1FFF then ChrRead(m.chr, addr)
    else NametableRead(m.mirroring, vram, addr)
  }

  /** A PPU write: CHR RAM stores it, CHR ROM ignores it, nametables go
      through the mirroring. */
  function WritePpu(m: Nrom, vram: seq<bv8>, addr: Address, v: bv8): (r: Outcome<PpuWritten<Nrom>>)
    requires Valid(m)
    ensures r.Ok? ==> Valid(r.value.cart) && r.value.cart == m.(chr := r.value.cart.chr)
    ensures r.Ok? ==> |r.value.vram| == |vram|
    ensures m.chr.ChrRom? && addr % 0x4000 < 0x2000 ==> r == Ok(PpuWritten(m, vram))
    ensures |vram| == VramSize && addr < 0x4000 ==> r.Ok?
  {
    if addr % 0x4000 <= 0x1FFF then
      var chr :- ChrWrite(m.chr, addr, v);
      Ok(PpuWritten(m.(chr := chr), vram))
    else
      var vram' :- NametableWrite(m.mirroring, vram, addr, v);
      Ok(PpuWritten(m, vram'))
  }

  /** CHR RAM keeps what the PPU writes. */
  lemma ChrRamRoundTrip(m: Nrom, vram: seq<bv8>, a: Address, b: Address, v: bv8)
    requires Valid(m) && m.chr.ChrRam? && a < 0x2000 && b < 0x2000
    ensures WritePpu(m, vram, a, v).Ok?
    ensures ReadPpu(WritePpu(m, vram, a, v).value.cart, vram, b) == if a == b then Ok(v) else ReadPpu(m, vram, b)
  {
    ChrWriteRead(m.chr, a, b, v);
  }
}
