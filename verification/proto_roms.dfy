/** The prototype's iNES reader (src/roms.rs): mapper 0 only, one or two
    16K PRG banks, CHR ROM required. A failed `assert!` on the PRG bank
    count is a panic; every other rejection is an error. */
module ProtoRoms {
  import opened Common
  import RomFiles

  type Mirroring = RomFiles.Mirroring

  datatype ProtoRom = ProtoRom(mirroring: Mirroring, prgRom: seq<bv8>, chrRom: seq<bv8>)

  /** The mapper test as written: the file is refused only when both flag
      bytes carry a nonzero mapper nibble. */
  predicate MapperRefusedAsWritten(flags6: bv8, flags7: bv8) {
    flags6 >> 4 != 0 && flags7 >> 4 != 0
  }

  /** The mapper test as its message says: anything but mapper 0 is
      refused. */
  predicate MapperRefused(flags6: bv8, flags7: bv8) {
    flags6 >> 4 != 0 || flags7 >> 4 != 0
  }

  /** The reader, with the mapper test it applies as a parameter. */
  function Parse(bytes: seq<bv8>, refused: (bv8, bv8) -> bool): (r: Outcome<ProtoRom>)
    ensures r.Panic? <==> |bytes| >= RomFiles.HeaderSize && bytes[..4] == RomFiles.Magic && bytes[4] != 1 && bytes[4] != 2
    ensures r.Ok? ==> |bytes| >= RomFiles.HeaderSize && bytes[..4] == RomFiles.Magic
  {
    if |bytes| < RomFiles.HeaderSize then
      Err("Could not read header")
    else if bytes[..4] != RomFiles.Magic then
      Err("File is not in the iNES format")
    else if !(bytes[4] == 1 || bytes[4] == 2) then
      Panic("assertion failed: header[4] == 1 || header[4] == 2")
    else
      var prgSize := RomFiles.PrgSize(bytes);
      var chrSize := RomFiles.ChrSize(bytes);
      if bytes[6] & 0x4 == 0x4 then
        Err("What's a trainer?")
      else
        var mirroring := RomFiles.HeaderMirroring(bytes[6]);
        if refused(bytes[6], bytes[7]) then
          Err("Only doing mapper 0 for now")
        else
          var rest := bytes[RomFiles.HeaderSize..];
          if |rest| < prgSize then
            Err("Could not read all of the prg_rom")
          else
            var prgRom := rest[..prgSize];
            var rest' := rest[prgSize..];
            if chrSize == 0 then
              Err("What does it mean when chr_rom_size is 0?")
            else if |rest'| < chrSize then
              Err("Could not read all of the chr_rom")
            else
              Ok(ProtoRom(mirroring, prgRom, rest'[..chrSize]))
  }

  /** `from_read` as written. */
  function FromReadAsWritten(bytes: seq<bv8>): Outcome<ProtoRom> {
    Parse(bytes, MapperRefusedAsWritten)
  }

  /** `from_read` with the mapper test its message describes. */
  function FromRead(bytes: seq<bv8>): (r: Outcome<ProtoRom>)
    ensures r.Ok? <==>
              && |bytes| >= RomFiles.HeaderSize && bytes[..4] == RomFiles.Magic
              && (bytes[4] == 1 || bytes[4] == 2) && bytes[5] != 0
              && bytes[6] & 0x4 == 0 && RomFiles.HeaderMapper(bytes[6], bytes[7]) == 0
              && RomFiles.Complete(bytes)
    ensures r.Ok? ==> |r.value.prgRom| == RomFiles.PrgSize(bytes) && |r.value.chrRom| == RomFiles.ChrSize(bytes)
    ensures r.Ok? ==> r.value.mirroring == RomFiles.HeaderMirroring(bytes[6])
  {
    if |bytes| < RomFiles.HeaderSize then Parse(bytes, MapperRefused)
    else
      MapperZero(bytes[6], bytes[7]);
      Parse(bytes, MapperRefused)
  }

  /** The mapper test of `FromRead` refuses exactly the nonzero mappers. */
  lemma MapperZero(flags6: bv8, flags7: bv8)
    ensures !MapperRefused(flags6, flags7) <==> RomFiles.HeaderMapper(flags6, flags7) == 0
  {
    RomFiles.MapperNibbles(flags6, flags7);
  }

  /** A file the reader accepts holds one or two 16K PRG banks and a
      nonempty CHR ROM. */
  lemma LoadedSizes(bytes: seq<bv8>)
    requires FromRead(bytes).Ok?
    ensures |FromRead(bytes).value.prgRom| == 16384 || |FromRead(bytes).value.prgRom| == 32768
    ensures |FromRead(bytes).value.chrRom| > 0 && |FromRead(bytes).value.chrRom| % 8192 == 0
  {
  }

  /** The header as written lets mapper 1 through: flags 6 holds a mapper
      nibble of 1 and flags 7 none, and the file loads as if it were
      mapper 0. */
  lemma MapperOneAccepted(prg: seq<bv8>, chr: seq<bv8>)
    requires |prg| == 16384 && |chr| == 8192
    ensures var bytes := RomFiles.Magic + [1, 1, 0x10, 0, 0, 0, 0, 0, 0, 0, 0, 0] + prg + chr;
            RomFiles.HeaderMapper(bytes[6], bytes[7]) == 1
            && FromReadAsWritten(bytes) == Ok(ProtoRom(RomFiles.Horizontal, prg, chr))
            && FromRead(bytes).Err?
  {
    var bytes := RomFiles.Magic + [1, 1, 0x10, 0, 0, 0, 0, 0, 0, 0, 0, 0] + prg + chr;
    RomFiles.MapperNibbles(0x10, 0);
    assert bytes[..4] == RomFiles.Magic;
    assert bytes[4] == 1 && bytes[5] == 1 && bytes[6] == 0x10 && bytes[7] == 0;
    var rest := bytes[RomFiles.HeaderSize..];
    assert rest == prg + chr;
    assert rest[..16384] == prg;
    assert rest[16384..] == chr;
    assert chr[..8192] == chr;
  }

  // ---------------------------------------------------------------------
  // Images

  /** A ROM this reader can describe: one or two PRG banks, 1 to 255 CHR
      banks. */
  predicate Representable(rom: ProtoRom) {
    && (|rom.prgRom| == 16384 || |rom.prgRom| == 32768)
    && |rom.chrRom| % RomFiles.ChrBankSize == 0 && 0 < |rom.chrRom| / RomFiles.ChrBankSize < 256
  }

  /** The flags-6 byte of a mapper-0 image. */
  function Flags6(m: Mirroring): bv8 {
    (if m == RomFiles.FourScreen then 0x8 else 0) | (if m == RomFiles.Vertical then 0x1 else 0)
  }

  /** The iNES image of a ROM: header, PRG ROM, CHR ROM. */
  function Image(rom: ProtoRom): (bytes: seq<bv8>)
    requires Representable(rom)
    ensures |bytes| == RomFiles.HeaderSize + |rom.prgRom| + |rom.chrRom|
  {
    RomFiles.Magic
    + [ByteOf(|rom.prgRom| / RomFiles.PrgBankSize), ByteOf(|rom.chrRom| / RomFiles.ChrBankSize), Flags6(rom.mirroring), 0]
    + [0, 0, 0, 0, 0, 0, 0, 0]
    + rom.prgRom + rom.chrRom
  }

  lemma Flags6Decodes(m: Mirroring)
    ensures Flags6(m) & 0x4 == 0 && Flags6(m) >> 4 == 0
    ensures RomFiles.HeaderMirroring(Flags6(m)) == m
  {
  }

  /** Where the image puts each field. */
  lemma ImageFields(rom: ProtoRom)
    requires Representable(rom)
    ensures var bytes := Image(rom);
            && bytes[..4] == RomFiles.Magic && (bytes[4] == 1 || bytes[4] == 2) && bytes[5] != 0
            && bytes[6] == Flags6(rom.mirroring) && bytes[7] == 0
            && RomFiles.PrgSize(bytes) == |rom.prgRom| && RomFiles.ChrSize(bytes) == |rom.chrRom|
            && bytes[RomFiles.HeaderSize..] == rom.prgRom + rom.chrRom
  {
    var bytes := Image(rom);
    var p := |rom.prgRom| / RomFiles.PrgBankSize;
    var c := |rom.chrRom| / RomFiles.ChrBankSize;
    assert bytes[4] == ByteOf(p) && bytes[5] == ByteOf(c);
    assert |rom.chrRom| == c * RomFiles.ChrBankSize;
  }

  /** Reading the image of a ROM gives back that ROM. */
  lemma ParseImage(rom: ProtoRom)
    requires Representable(rom)
    ensures FromRead(Image(rom)) == Ok(rom)
  {
    var bytes := Image(rom);
    var p := |rom.prgRom|;
    var c := |rom.chrRom|;
    ImageFields(rom);
    Flags6Decodes(rom.mirroring);
    MapperZero(Flags6(rom.mirroring), 0);
    RomFiles.MapperNibbles(Flags6(rom.mirroring), 0);
    var rest := bytes[RomFiles.HeaderSize..];
    assert rest[..p] == rom.prgRom;
    assert rest[p..] == rom.chrRom;
    assert rom.chrRom[..c] == rom.chrRom;
    assert Parse(bytes, MapperRefused) == Ok(rom);
  }
}
