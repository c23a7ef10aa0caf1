/** Mapper 2, UxROM (covnes/src/nes/mappers/uxrom.rs): a switchable 16 KB PRG
    bank at $8000, the last 16 KB bank fixed at $C000, optional PRG RAM, 8 KB
    of CHR ROM or CHR RAM. The file declares it against a `Cartridge` trait
    rather than `CartridgeImpl`; it offers the same four operations and is
    modelled with them. */
module UxRom {
  import opened Common
  import opened MapperCommon
  import RomFiles

  const BankSize: nat := 16384
  const ChrSize: nat := 8192

  datatype UxRom = UxRom(
    mirroring: MirrorMode,
    prgRom: seq<bv8>,
    bank: bv8,
    chr: Chr,
    prgRam: Option<seq<bv8>>)

  /** The bank counts `from_rom` accepts: powers of two up to 128. */
  predicate PowerOfTwoBanks(banks: nat) {
    banks == 1 || banks == 2 || banks == 4 || banks == 8
    || banks == 16 || banks == 32 || banks == 64 || banks == 128
  }

  /** What `from_rom` guarantees about every UxROM it builds. */
  predicate Valid(m: UxRom) {
    && PowerOfTwoBanks(|m.prgRom| / BankSize)
    && |m.chr.Bytes()| == ChrSize
    && PrgRamValid(m.prgRam)
    && (m.mirroring == Horizontal || m.mirroring == Vertical)
  }

  function FromRom(rom: RomFiles.RomFile): (r: Outcome<UxRom>)
    ensures r.Err? <==> !PowerOfTwoBanks(|rom.prgRom| / BankSize)
                        || (rom.chrRom.Some? && |rom.chrRom.value| != ChrSize)
    ensures r.Panic? <==> !r.Err? && rom.mirroring.FourScreen?
    ensures r.Ok? ==> Valid(r.value) && r.value.bank == 0
    ensures r.Ok? ==> r.value.prgRom == rom.prgRom && (r.value.prgRam.Some? <==> rom.providePrgRam)
    ensures r.Ok? ==> r.value.chr == if rom.chrRom.Some? then ChrRom(rom.chrRom.value) else ChrRam(Zeros(ChrSize))
  {
    var banks := |rom.prgRom| / 16384;
    if !PowerOfTwoBanks(banks) then
      Err("Badly sized prg_rom for mapper 2 (not power of 2)")
    else
      var prgRam := NewPrgRam(rom.providePrgRam);
      if rom.chrRom.Some? && |rom.chrRom.value| != ChrSize then
        Err("Badly sized chr_rom for mapper 2")
      else
        var chr := if rom.chrRom.Some? then ChrRom(rom.chrRom.value) else ChrRam(Zeros(ChrSize));
        var mirroring :- FixedMirroring(rom.mirroring, "Can't do FourScreen on mapper 2/NROM");
        Ok(UxRom(mirroring, rom.prgRom, 0, chr, prgRam))
  }

  /** A CPU read: $8000-$BFFF through the bank register, $C000-$FFFF through
      bank 255, both wrapped to the PRG length; unmapped space reads 0. */
  function ReadCpu(m: UxRom, addr: Address): (v: bv8)
    requires Valid(m)
    ensures addr < 0x6000 ==> v == 0
    ensures 0x6000 <= addr <= 0x7FFF ==> v == PrgRamRead(m.prgRam, addr - 0x6000)
  {
    if 0x6000 <= addr <= 0x7FFF then PrgRamRead(m.prgRam, addr - 0x6000)
    else if 0x8000 <= addr <= 0xBFFF then
      var base := m.bank as int * 16384;
      m.prgRom[(base + (addr - 0x8000)) % |m.prgRom|]
    else if 0xC000 <= addr then
      var base := 255 * 16384;
      m.prgRom[(base + (addr - 0xC000)) % |m.prgRom|]
    else 0
  }

  /** $8000-$BFFF shows the selected bank, taken modulo the bank count. */
  lemma SwitchableBank(m: UxRom, addr: Address)
    requires Valid(m) && |m.prgRom| % BankSize == 0 && 0x8000 <= addr <= 0xBFFF
    ensures ReadCpu(m, addr)
         == m.prgRom[(m.bank as int % (|m.prgRom| / BankSize)) * BankSize + (addr - 0x8000)]
  {
    BankWrap(m.bank as nat, |m.prgRom| / BankSize, BankSize, addr - 0x8000);
  }

  /** 255 modulo a power of two no larger than 256 is the last bank. */
  lemma LastBankIndex(n: nat)
    requires PowerOfTwoBanks(n)
    ensures 255 % n == n - 1
  {
  }

  /** $C000-$FFFF always shows the last bank. */
  lemma FixedLastBank(m: UxRom, addr: Address)
    requires Valid(m) && |m.prgRom| % BankSize == 0 && 0xC000 <= addr
    ensures ReadCpu(m, addr) == m.prgRom[|m.prgRom| - BankSize + (addr - 0xC000)]
  {
    var n := |m.prgRom| / BankSize;
    BankWrap(255, n, BankSize, addr - 0xC000);
    LastBankIndex(n);
  }

  /** A CPU write: PRG RAM at $6000-$7FFF, the bank register (the whole byte)
      anywhere in $8000-$FFFF, ignored elsewhere. */
  function WriteCpu(m: UxRom, addr: Address, v: bv8): (r: UxRom)
    requires Valid(m)
    ensures Valid(r)
    ensures r == m.(prgRam := r.prgRam, bank := r.bank)
    ensures 0x8000 <= addr ==> r == m.(bank := v)
    ensures addr < 0x6000 ==> r == m
  {
    if 0x6000 <= addr <= 0x7FFF then m.(prgRam := PrgRamWrite(m.prgRam, addr - 0x6000, v))
    else if 0x8000 <= addr then m.(bank := v)
    else m
  }

  /** Selecting a bank and reading the switchable window shows that bank. */
  lemma SelectThenRead(m: UxRom, w: Address, addr: Address, v: bv8)
    requires Valid(m) && |m.prgRom| % BankSize == 0 && 0x8000 <= w && 0x8000 <= addr <= 0xBFFF
    ensures ReadCpu(WriteCpu(m, w, v), addr)
         == m.prgRom[(v as int % (|m.prgRom| / BankSize)) * BankSize + (addr - 0x8000)]
  {
    SwitchableBank(WriteCpu(m, w, v), addr);
  }

  lemma WriteThenReadRam(m: UxRom, a: Address, b: Address, v: bv8)
    requires Valid(m) && 0x6000 <= a <= 0x7FFF && 0x6000 <= b <= 0x7FFF
    ensures ReadCpu(WriteCpu(m, a, v), b) == if m.prgRam.Some? && a == b then v else ReadCpu(m, b)
  {
    PrgRamWriteRead(m.prgRam, a - 0x6000, b - 0x6000, v);
  }

  /** A PPU read: pattern memory below $2000, nametables through the
      mirroring above; as in NROM the range is chosen modulo $4000 but the
      unreduced address is used. */
  function ReadPpu(m: UxRom, vram: seq<bv8>, addr: Address): (r: Outcome<bv8>)
    requires Valid(m)
    ensures |vram| == VramSize ==> (r.Ok? <==> addr < 0x4000)
    ensures addr < 0x2000 ==> r == Ok(m.chr.Bytes()[addr])
    ensures 0x2000 <= addr < 0x4000 ==> r == NametableRead(m.mirroring, vram, addr)
  {
    if addr % 0x4000 <= 0x1FFF then ChrRead(m.chr, addr)
    else NametableRead(m.mirroring, vram, addr)
  }

  function WritePpu(m: UxRom, vram: seq<bv8>, addr: Address, v: bv8): (r: Outcome<PpuWritten<UxRom>>)
    requires Valid(m)
    ensures r.Ok? ==> Valid(r.value.cart) && r.value.cart == m.(chr := r.value.cart.chr)
    ensures r.Ok? ==> |r.value.vram| == |vram|
    ensures m.chr.ChrRom? && addr % 0x4000 < 0x2000 ==> r == Ok(PpuWritten(m, vram))
    ensures |vram| == VramSize && addr < 0x4000 ==> r.Ok?
  {
    if addr % 0x4000 <= 0x1FFF then
      var chr :- ChrWrite(m.chr, addr, v);
      Ok(PpuWritten(m.(chr := chr), vram))
    else
      var vram' :- NametableWrite(m.mirroring, vram, addr, v);
      Ok(PpuWritten(m, vram'))
  }

  lemma ChrRamRoundTrip(m: UxRom, vram: seq<bv8>, a: Address, b: Address, v: bv8)
    requires Valid(m) && m.chr.ChrRam? && a < 0x2000 && b < 0x2000
    ensures WritePpu(m, vram, a, v).Ok?
    ensures ReadPpu(WritePpu(m, vram, a, v).value.cart, vram, b) == if a == b then Ok(v) else ReadPpu(m, vram, b)
  {
    ChrWriteRead(m.chr, a, b, v);
  }
}
