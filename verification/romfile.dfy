/** The iNES file parser (covnes/src/romfiles.rs): a 16-byte header, then the
    PRG ROM, then the CHR ROM. The file is a byte sequence; every `read` of
    the source is taken to deliver as many bytes as remain, up to the buffer
    size. */
module RomFiles {
  import opened Common

  datatype Mirroring = Horizontal | Vertical | FourScreen

  datatype RomFile = RomFile(
    prgRom: seq<bv8>,
    chrRom: Option<seq<bv8>>,
    providePrgRam: bool,
    mirroring: Mirroring,
    mapper: nat)

  /** "NES" followed by MS-DOS end-of-file. */
  const Magic: seq<bv8> := [0x4E, 0x45, 0x53, 0x1A]

  const HeaderSize: nat := 16
  const PrgBankSize: nat := 16384
  const ChrBankSize: nat := 8192

  function PrgSize(header: seq<bv8>): nat
    requires |header| >= HeaderSize
  {
    header[4] as nat * PrgBankSize
  }

  function ChrSize(header: seq<bv8>): nat
    requires |header| >= HeaderSize
  {
    header[5] as nat * ChrBankSize
  }

  /** Mirroring from flags 6: bit 3 (four-screen VRAM) wins over bit 0. */
  function HeaderMirroring(flags6: bv8): Mirroring {
    if flags6 & 0x8 == 0x8 then FourScreen
    else if flags6 & 0x1 == 0x1 then Vertical
    else Horizontal
  }

  /** Mapper number: high nibble from flags 7, low nibble from flags 6. */
  function HeaderMapper(flags6: bv8, flags7: bv8): nat {
    ((flags7 & 0xF0) | (flags6 >> 4)) as nat
  }

  /** Whether the file holds everything the header announces. */
  predicate Complete(bytes: seq<bv8>)
    requires |bytes| >= HeaderSize
  {
    |bytes| >= HeaderSize + PrgSize(bytes) + ChrSize(bytes)
  }

  function FromRead(bytes: seq<bv8>): (r: Outcome<RomFile>)
    ensures !r.Panic?
    ensures r.Ok? <==> |bytes| >= HeaderSize && bytes[..4] == Magic && bytes[6] & 4 == 0 && Complete(bytes)
    ensures r.Ok? ==> |r.value.prgRom| == PrgSize(bytes)
    ensures r.Ok? ==> (r.value.chrRom.None? <==> bytes[5] == 0)
    ensures r.Ok? && r.value.chrRom.Some? ==> |r.value.chrRom.value| == ChrSize(bytes)
    ensures r.Ok? ==> r.value.mapper < 256
  {
    if |bytes| < HeaderSize then
      Err("Could not read header")
    else if bytes[..4] != Magic then
      Err("File is not in the iNES format")
    else
      var header := bytes[..HeaderSize];
      var prgSize := PrgSize(header);
      var chrSize := ChrSize(header);
      var providePrgRam := header[6] & 2 == 2;
      var provideTrainer := header[6] & 4 == 4;
      if provideTrainer then
        Err("What's a trainer?")
      else
        var mirroring := HeaderMirroring(header[6]);
        var mapper := HeaderMapper(header[6], header[7]);
        var rest := bytes[HeaderSize..];
        if |rest| < prgSize then
          Err("Could not read all of the prg_rom")
        else
          var prgRom := rest[..prgSize];
          var rest' := rest[prgSize..];
          if chrSize == 0 then
            Ok(RomFile(prgRom, None, providePrgRam, mirroring, mapper))
          else if |rest'| < chrSize then
            Err("Could not read all of the chr_rom")
          else
            Ok(RomFile(prgRom, Some(rest'[..chrSize]), providePrgRam, mirroring, mapper))
  }

  /** The mapper number's two nibbles come from the two flag bytes. */
  lemma MapperNibbles(flags6: bv8, flags7: bv8)
    ensures HeaderMapper(flags6, flags7) == (flags7 >> 4) as nat * 16 + (flags6 >> 4) as nat
  {
  }

  lemma FourScreenPrecedence(flags6: bv8)
    ensures HeaderMirroring(flags6) == FourScreen <==> flags6 & 0x8 != 0
    ensures flags6 & 0x8 == 0 ==> (HeaderMirroring(flags6) == Vertical <==> flags6 & 0x1 != 0)
  {
  }

  /** A ROM image the format can describe: whole banks, at most 255 of each,
      a mapper number below 256, and CHR ROM present only when non-empty. */
  predicate Representable(rom: RomFile) {
    && |rom.prgRom| % PrgBankSize == 0 && |rom.prgRom| / PrgBankSize < 256
    && (rom.chrRom.Some? ==>
          && |rom.chrRom.value| % ChrBankSize == 0
          && 0 < |rom.chrRom.value| / ChrBankSize < 256)
    && rom.mapper < 256
  }

  function ChrBytes(rom: RomFile): seq<bv8> {
    if rom.chrRom.Some? then rom.chrRom.value else []
  }

  /** The flags-6 byte a writer of the format would produce. */
  function Flags6(rom: RomFile): bv8
    requires rom.mapper < 256
  {
    (ByteOf(rom.mapper) << 4) | Flags6Low(rom)
  }

  /** The low nibble of flags 6: four-screen, PRG RAM, vertical. */
  function Flags6Low(rom: RomFile): (b: bv8)
    ensures b < 16
  {
    (if rom.mirroring == FourScreen then 0x8 else 0)
    | (if rom.providePrgRam then 0x2 else 0)
    | (if rom.mirroring == Vertical then 0x1 else 0)
  }

  /** The flags-7 byte: the high nibble of the mapper number. */
  function Flags7(rom: RomFile): bv8
    requires rom.mapper < 256
  {
    ByteOf(rom.mapper) & 0xF0
  }

  /** The header of a ROM's image. */
  function Header(rom: RomFile): (h: seq<bv8>)
    requires Representable(rom)
    ensures |h| == HeaderSize
  {
    Magic
    + [ByteOf(|rom.prgRom| / PrgBankSize), ByteOf(|ChrBytes(rom)| / ChrBankSize), Flags6(rom), Flags7(rom)]
    + [0, 0, 0, 0, 0, 0, 0, 0]
  }

  /** The iNES image of a ROM: header, PRG ROM, CHR ROM. */
  function Image(rom: RomFile): (bytes: seq<bv8>)
    requires Representable(rom)
    ensures |bytes| == HeaderSize + |rom.prgRom| + |ChrBytes(rom)|
  {
    Header(rom) + rom.prgRom + ChrBytes(rom)
  }

  /** The mapper nibbles survive the trip through flags 6 and 7. */
  lemma MapperBytes(m: bv8, low: bv8)
    requires low < 16
    ensures (m & 0xF0) | (((m << 4) | low) >> 4) == m
  {
  }

  lemma Flags6Decodes(rom: RomFile)
    requires rom.mapper < 256
    ensures Flags6(rom) & 4 == 0
    ensures Flags6(rom) & 2 == 2 <==> rom.providePrgRam
    ensures HeaderMirroring(Flags6(rom)) == rom.mirroring
    ensures HeaderMapper(Flags6(rom), Flags7(rom)) == rom.mapper
  {
    MapperBytes(ByteOf(rom.mapper), Flags6Low(rom));
    FlagBits(ByteOf(rom.mapper), Flags6Low(rom));
  }

  /** The low nibble of flags 6 is read back bit for bit. */
  lemma FlagBits(m: bv8, low: bv8)
    requires low < 16
    ensures ((m << 4) | low) & 0xF == low
  {
  }

  lemma HeaderFields(rom: RomFile)
    requires Representable(rom)
    ensures Header(rom)[..4] == Magic
    ensures PrgSize(Header(rom)) == |rom.prgRom|
    ensures ChrSize(Header(rom)) == |ChrBytes(rom)|
    ensures Header(rom)[5] == 0 <==> rom.chrRom.None?
    ensures Header(rom)[6] == Flags6(rom) && Header(rom)[7] == Flags7(rom)
  {
    var h := Header(rom);
    var p := |rom.prgRom| / PrgBankSize;
    var c := |ChrBytes(rom)| / ChrBankSize;
    assert h[4] == ByteOf(p) && h[5] == ByteOf(c);
    assert |ChrBytes(rom)| == c * ChrBankSize;
  }


  /** Parsing the image of a ROM gives back that ROM. */
  lemma ParseImage(rom: RomFile)
    requires Representable(rom)
    ensures FromRead(Image(rom)) == Ok(rom)
  {
    Flags6Decodes(rom);
    HeaderFields(rom);
    var bytes := Image(rom);
    assert bytes[..HeaderSize] == Header(rom);
    assert bytes[..4] == Magic;
    var rest := bytes[HeaderSize..];
    assert rest == rom.prgRom + ChrBytes(rom);
    assert rest[..|rom.prgRom|] == rom.prgRom;
    assert rest[|rom.prgRom|..] == ChrBytes(rom);
    assert ChrBytes(rom)[..|ChrBytes(rom)|] == ChrBytes(rom);
  }

  /** Bytes after the announced payload are ignored. */
  lemma TrailingBytesIgnored(bytes: seq<bv8>, extra: seq<bv8>)
    requires FromRead(bytes).Ok?
    ensures FromRead(bytes + extra) == FromRead(bytes)
  {
    var all := bytes + extra;
    assert all[..HeaderSize] == bytes[..HeaderSize];
    assert all[..4] == bytes[..4];
    var p := PrgSize(bytes);
    var c := ChrSize(bytes);
    assert all[HeaderSize..][..p] == bytes[HeaderSize..][..p];
    assert all[HeaderSize..][p..][..c] == bytes[HeaderSize..][p..][..c];
  }
}
