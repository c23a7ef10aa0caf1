/** The prototype's cartridge (src/cartridges.rs): mapper 0 with its PRG
    ROM at 8000-FFFF, a 16K ROM appearing twice. Reads elsewhere and every
    write panic. */
module ProtoCartridge {
  import opened Common
  import ProtoRoms

  /** A CPU address, as the bus passes it on. */
  type Addr = a: int | 0 <= a < 0x10000

  datatype Mapper0 = Mapper0(mirroring: ProtoRoms.Mirroring, prgRom: seq<bv8>, chrRom: seq<bv8>, mirrorPrgRom: bool)

  /** `from_rom`: a ROM of at most 16K is mirrored. */
  function FromRom(rom: ProtoRoms.ProtoRom): (m: Mapper0)
    ensures m.prgRom == rom.prgRom && m.chrRom == rom.chrRom && m.mirroring == rom.mirroring
    ensures m.mirrorPrgRom <==> |rom.prgRom| <= 16384
  {
    Mapper0(rom.mirroring, rom.prgRom, rom.chrRom, |rom.prgRom| <= 16384)
  }

  /** The byte at an index of the PRG ROM; past its end, Rust's bounds check
      panics. */
  function PrgAt(m: Mapper0, i: nat): (r: Outcome<bv8>)
    ensures r.Ok? <==> i < |m.prgRom|
    ensures r.Ok? ==> r.value == m.prgRom[i]
    ensures !r.Err?
  {
    if i < |m.prgRom| then Ok(m.prgRom[i]) else Panic("index out of bounds")
  }

  /** `read_cpu`. */
  function ReadCpu(m: Mapper0, addr: Addr): (r: Outcome<bv8>)
    ensures addr < 0x8000 ==> r.Panic?
    ensures !r.Err?
  {
    if m.mirrorPrgRom then
      if 0x8000 <= addr <= 0xBFFF then PrgAt(m, addr - 0x8000)
      else if 0xC000 <= addr then PrgAt(m, addr - 0xC000)
      else Panic("Bad read")
    else
      if 0x8000 <= addr then PrgAt(m, addr - 0x8000)
      else Panic("Bad read")
  }

  /** `write_cpu`: the cartridge takes no writes. */
  function WriteCpu(m: Mapper0, addr: Addr, value: bv8): (r: Outcome<()>)
    ensures r.Panic?
  {
    Panic("You can't write here!")
  }

  /** For a ROM the reader accepts, every read of 8000-FFFF succeeds and
      sees the PRG ROM repeated to fill 32K: a 16K ROM appears at 8000 and
      again at C000. */
  lemma ReadsPrg(rom: ProtoRoms.ProtoRom, addr: Addr)
    requires |rom.prgRom| == 16384 || |rom.prgRom| == 32768
    requires addr >= 0x8000
    ensures ReadCpu(FromRom(rom), addr) == Ok(rom.prgRom[(addr - 0x8000) % |rom.prgRom|])
  {
  }

  /** With a 16K ROM the two halves of 8000-FFFF read alike. */
  lemma MirroredHalves(rom: ProtoRoms.ProtoRom, addr: Addr)
    requires |rom.prgRom| == 16384 && 0x8000 <= addr <= 0xBFFF
    ensures ReadCpu(FromRom(rom), addr) == ReadCpu(FromRom(rom), addr + 0x4000)
  {
    ReadsPrg(rom, addr);
    ReadsPrg(rom, addr + 0x4000);
  }
}
