/** Mapper 1, SxROM / MMC1 (covnes/src/nes/mappers/sxrom.rs): four 5-bit
    registers loaded one bit per write through a serial shift register, PRG
    banking in one 32 KB or two 16 KB windows, CHR banking in one 8 KB or two
    4 KB windows, and mirroring chosen by software. */
module SxRom {
  import opened Common
  import opened MapperCommon
  import RomFiles

  /** The empty shift register: only the marker bit that reaches bit 0 after
      four shifts. */
  const LoadRegInitial: bv8 := 0x10

  datatype SxRom = SxRom(
    prgRom: seq<bv8>,
    chr: Chr,
    prgRam: Option<seq<bv8>>,
    loadReg: bv8,
    control: bv8,
    chrBank0: bv8,
    chrBank1: bv8,
    prgBank: bv8)

  /** The 16 KB PRG bank counts `from_rom` asserts. */
  predicate PrgBanksOk(banks: nat) {
    banks == 2 || banks == 4 || banks == 8 || banks == 16 || banks == 32
  }

  /** The 8 KB CHR ROM bank counts `from_rom` asserts. */
  predicate ChrBanksOk(banks: nat) {
    banks == 1 || banks == 2 || banks == 4 || banks == 8 || banks == 16
  }

  /** What `from_rom` guarantees about every SxROM it builds. */
  predicate Valid(m: SxRom) {
    && PrgBanksOk(|m.prgRom| / 16384)
    && ChrBanksOk(|m.chr.Bytes()| / 8192)
    && PrgRamValid(m.prgRam)
  }

  /** The size assertions hold, so the constructor returns; they abort
      otherwise. The cartridge's mirroring flag is not consulted: MMC1 sets
      mirroring itself. */
  function FromRom(rom: RomFiles.RomFile): (r: Outcome<SxRom>)
    ensures !r.Err?
    ensures r.Ok? <==> PrgBanksOk(|rom.prgRom| / 16384)
                       && (rom.chrRom.Some? ==> ChrBanksOk(|rom.chrRom.value| / 8192))
    ensures r.Ok? ==> Valid(r.value)
    ensures r.Ok? ==> r.value.loadReg == LoadRegInitial && r.value.control == 0x0C
    ensures r.Ok? ==> r.value.chrBank0 == 0 && r.value.chrBank1 == 0 && r.value.prgBank == 0
    ensures r.Ok? ==> r.value.prgRom == rom.prgRom && (r.value.prgRam.Some? <==> rom.providePrgRam)
    ensures r.Ok? ==> r.value.chr == if rom.chrRom.Some? then ChrRom(rom.chrRom.value) else ChrRam(Zeros(0x2000))
  {
    var prgBanks := |rom.prgRom| / 16384;
    if !PrgBanksOk(prgBanks) then
      Panic("assertion failed: prg_banks")
    else if rom.chrRom.Some? && !ChrBanksOk(|rom.chrRom.value| / 8192) then
      Panic("assertion failed: rom_banks")
    else
      var chr := if rom.chrRom.None? then ChrRam(Zeros(0x2000)) else ChrRom(rom.chrRom.value);
      var prgRam := NewPrgRam(rom.providePrgRam);
      Ok(SxRom(rom.prgRom, chr, prgRam, LoadRegInitial, 0x0C, 0, 0, 0))
  }

  /** Mirroring is control bits 1-0. */
  function GetMirroring(control: bv8): (mode: MirrorMode)
    ensures mode == OneScreenLower <==> control & 3 == 0
    ensures mode == OneScreenHigher <==> control & 3 == 1
    ensures mode == Vertical <==> control & 3 == 2
    ensures mode == Horizontal <==> control & 3 == 3
  {
    match control & 0x3
    case 0 => OneScreenLower
    case 1 => OneScreenHigher
    case 2 => Vertical
    case _ => Horizontal
  }

  // CPU side.

  /** PRG bank and offset for a read of $8000-$FFFF, by PRG mode (control
      bits 3-2): 11 fixes bank 31 at $C000, 10 fixes bank 0 at $8000, and
      00/01 switch 32 KB at once, ignoring bank bit 0. */
  function PrgBankAndOffset(control: bv8, prgBank: bv8, addr: Address): (r: (bv8, int))
    requires 0x8000 <= addr
    ensures 0 <= r.1 < 0x8000
    ensures control & 8 == 8 ==> r.1 < 0x4000
    ensures control & 8 == 0 ==> r.0 & 1 == 0
  {
    var controlH := control & 8 == 8;
    var controlL := control & 4 == 4;
    if controlH && controlL then
      if addr < 0xC000 then (prgBank, addr - 0x8000) else (31, addr - 0xC000)
    else if controlH && !controlL then
      if addr < 0xC000 then (0, addr - 0x8000) else (prgBank, addr - 0xC000)
    else
      (prgBank & 0x1E, addr - 0x8000)
  }

  /** The PRG ROM address `(bank << 14) | offset`. The OR is a sum: the
      offset stays below $4000 or the bank's bit 0 is clear (see
      `PrgBankAndOffset`), so the two never share a bit. */
  function PrgAddr(bank: bv8, offset: int): int {
    bank as int * 0x4000 + offset
  }

  function ReadCpu(m: SxRom, addr: Address): (r: Outcome<bv8>)
    requires Valid(m)
    ensures r.Ok? <==> addr >= 0x6000
    ensures !r.Err?
    ensures 0x6000 <= addr <= 0x7FFF ==> r == Ok(PrgRamRead(m.prgRam, addr - 0x6000))
  {
    if addr <= 0x5FFF then
      Panic("Bad cpu read to cartridge")
    else if addr <= 0x7FFF then
      Ok(PrgRamRead(m.prgRam, addr - 0x6000))
    else
      var (bank, offset) := PrgBankAndOffset(m.control, m.prgBank, addr);
      Ok(m.prgRom[PrgAddr(bank, offset) % |m.prgRom|])
  }

  /** 31 modulo a bank count that `from_rom` accepts is the last bank. */
  lemma LastPrgBank(n: nat)
    requires PrgBanksOk(n)
    ensures 31 % n == n - 1
  {
  }

  /** PRG mode 3 (the power-on mode): $C000-$FFFF shows the last bank. */
  lemma FixedLastBank(m: SxRom, addr: Address)
    requires Valid(m) && |m.prgRom| % 16384 == 0 && m.control & 0xC == 0xC && 0xC000 <= addr
    ensures ReadCpu(m, addr) == Ok(m.prgRom[|m.prgRom| - 16384 + (addr - 0xC000)])
  {
    var n := |m.prgRom| / 16384;
    BankWrap(31, n, 0x4000, addr - 0xC000);
    LastPrgBank(n);
  }

  /** PRG mode 2: $8000-$BFFF shows the first bank. */
  lemma FixedFirstBank(m: SxRom, addr: Address)
    requires Valid(m) && m.control & 0xC == 0x8 && 0x8000 <= addr <= 0xBFFF
    ensures ReadCpu(m, addr) == Ok(m.prgRom[addr - 0x8000])
  {
    SmallMod(addr - 0x8000, |m.prgRom|);
  }


  /** PRG modes 0 and 1 switch 32 KB at once: bank bit 0 does not matter. */
  lemma WidePrgIgnoresLowBit(m: SxRom, addr: Address)
    requires Valid(m) && m.control & 8 == 0 && 0x8000 <= addr
    ensures ReadCpu(m, addr) == ReadCpu(m.(prgBank := m.prgBank ^ 1), addr)
  {
    assert (m.prgBank ^ 1) & 0x1E == m.prgBank & 0x1E;
  }

  /** The register a completed serial load lands in, by address. */
  function Commit(m: SxRom, addr: Address, value: bv8): (r: SxRom)
    requires 0x8000 <= addr
    ensures r.prgRom == m.prgRom && r.chr == m.chr && r.prgRam == m.prgRam
  {
    if addr <= 0x9FFF then m.(control := value)
    else if addr <= 0xBFFF then m.(chrBank0 := value)
    else if addr <= 0xDFFF then m.(chrBank1 := value)
    else m.(prgBank := value)
  }

  /** A write to $8000-$FFFF: bit 7 resets the shift register; otherwise bit 0
      is shifted in at bit 4, and the write that finds the marker at bit 0
      commits the five bits and empties the register. */
  function Serial(m: SxRom, addr: Address, v: bv8): (r: SxRom)
    requires 0x8000 <= addr
    ensures r.prgRom == m.prgRom && r.chr == m.chr && r.prgRam == m.prgRam
    ensures v & 0x80 == 0x80 ==> r == m.(loadReg := LoadRegInitial)
  {
    if v & 0x80 == 0x80 then
      m.(loadReg := LoadRegInitial)
    else
      var prev := m.loadReg;
      var next := (prev >> 1) | ((v & 1) << 4);
      if prev & 1 == 1 then
        Commit(m.(loadReg := LoadRegInitial), addr, next)
      else
        m.(loadReg := next)
  }

  function WriteCpu(m: SxRom, addr: Address, v: bv8): (r: Outcome<SxRom>)
    requires Valid(m)
    ensures r.Ok? <==> addr >= 0x6000
    ensures !r.Err?
    ensures r.Ok? ==> Valid(r.value)
    ensures 0x6000 <= addr <= 0x7FFF ==> r == Ok(m.(prgRam := PrgRamWrite(m.prgRam, addr - 0x6000, v)))
  {
    if addr <= 0x5FFF then
      Panic("Bad cpu write to cartridge")
    else if addr <= 0x7FFF then
      Ok(m.(prgRam := PrgRamWrite(m.prgRam, addr - 0x6000, v)))
    else
      Ok(Serial(m, addr, v))
  }

  /** PRG RAM keeps what the CPU writes; without PRG RAM reads stay 0. */
  lemma WriteThenReadRam(m: SxRom, a: Address, b: Address, v: bv8)
    requires Valid(m) && 0x6000 <= a <= 0x7FFF && 0x6000 <= b <= 0x7FFF
    ensures WriteCpu(m, a, v).Ok?
    ensures ReadCpu(WriteCpu(m, a, v).value, b)
         == Ok(if m.prgRam.Some? && a == b then v else PrgRamRead(m.prgRam, b - 0x6000))
  {
    PrgRamWriteRead(m.prgRam, a - 0x6000, b - 0x6000, v);
  }

  /** A sequence of serial writes, each to some address in $8000-$FFFF. */
  function SerialAll(m: SxRom, addrs: seq<Address>, vs: seq<bv8>): (r: SxRom)
    requires |addrs| == |vs|
    requires forall i :: 0 <= i < |addrs| ==> 0x8000 <= addrs[i]
    ensures r.prgRom == m.prgRom && r.chr == m.chr && r.prgRam == m.prgRam
    decreases |vs|
  {
    if |vs| == 0 then m
    else Serial(SerialAll(m, addrs[..|vs| - 1], vs[..|vs| - 1]), addrs[|vs| - 1], vs[|vs| - 1])
  }

  /** The five bit-0s of a load, the first write's bit lowest. */
  function Assemble(vs: seq<bv8>): (value: bv8)
    requires |vs| == 5
    ensures value < 0x20
  {
    (vs[0] & 1) | ((vs[1] & 1) << 1) | ((vs[2] & 1) << 2) | ((vs[3] & 1) << 3) | ((vs[4] & 1) << 4)
  }

  /** The shift register after `k` data writes from empty: the marker at bit
      4 - k above the bits written so far, the latest at bit 4. */
  function Pending(vs: seq<bv8>): bv8
    requires |vs| <= 4
  {
    match |vs|
    case 0 => 0x10
    case 1 => 0x08 | ((vs[0] & 1) << 4)
    case 2 => 0x04 | ((vs[0] & 1) << 3) | ((vs[1] & 1) << 4)
    case 3 => 0x02 | ((vs[0] & 1) << 2) | ((vs[1] & 1) << 3) | ((vs[2] & 1) << 4)
    case _ => 0x01 | ((vs[0] & 1) << 1) | ((vs[1] & 1) << 2) | ((vs[2] & 1) << 3) | ((vs[3] & 1) << 4)
  }

  /** Bit 7 clear in every value: no write of the sequence is a reset. */
  predicate DataWrites(vs: seq<bv8>) {
    forall i :: 0 <= i < |vs| ==> vs[i] & 0x80 == 0
  }

  /** One data write on a register holding fewer than four bits. */
  lemma ShiftOne(m: SxRom, addr: Address, vs: seq<bv8>, v: bv8)
    requires 0x8000 <= addr && |vs| < 4 && m.loadReg == Pending(vs) && v & 0x80 == 0
    ensures Serial(m, addr, v) == m.(loadReg := Pending(vs + [v]))
  {
    var w := vs + [v];
    assert w[..|vs|] == vs;
    if |vs| == 0 {
    } else if |vs| == 1 {
    } else if |vs| == 2 {
    } else {
    }
  }

  /** Fewer than five data writes from an empty register commit nothing:
      only the shift register changes. */
  lemma {:induction false} PartialLoad(m: SxRom, addrs: seq<Address>, vs: seq<bv8>)
    requires |addrs| == |vs| <= 4 && (forall i :: 0 <= i < |addrs| ==> 0x8000 <= addrs[i])
    requires m.loadReg == LoadRegInitial && DataWrites(vs)
    ensures SerialAll(m, addrs, vs) == m.(loadReg := Pending(vs))
  {
    if |vs| > 0 {
      var k := |vs| - 1;
      PartialLoad(m, addrs[..k], vs[..k]);
      ShiftOne(SerialAll(m, addrs[..k], vs[..k]), addrs[k], vs[..k], vs[k]);
      assert vs[..k] + [vs[k]] == vs;
    }
  }

  /** The fifth data write commits the five bits to the register its address
      selects and empties the shift register. */
  lemma FifthWriteCommits(m: SxRom, addrs: seq<Address>, vs: seq<bv8>)
    requires |addrs| == |vs| == 5 && (forall i :: 0 <= i < 5 ==> 0x8000 <= addrs[i])
    requires m.loadReg == LoadRegInitial && DataWrites(vs)
    ensures SerialAll(m, addrs, vs) == Commit(m, addrs[4], Assemble(vs))
  {
    PartialLoad(m, addrs[..4], vs[..4]);
    CommitValue(vs);
  }

  lemma CommitValue(vs: seq<bv8>)
    requires |vs| == 5
    ensures Pending(vs[..4]) & 1 == 1
    ensures (Pending(vs[..4]) >> 1) | ((vs[4] & 1) << 4) == Assemble(vs)
  {
  }

  // PPU side.

  /** Index into CHR memory of a pattern-table address (below $2000): two
      4 KB windows when control bit 4 is set, else one 8 KB window. In the
      8 KB mode the bank number, bit 0 cleared, is multiplied by 8 KB; MMC1
      counts that number in 4 KB units (see the findings in the README). */
  function ChrIndexAsWritten(m: SxRom, addr: Address): int
    requires |m.chr.Bytes()| > 0 && addr < 0x2000
  {
    var chrSize := |m.chr.Bytes()|;
    if m.control & 0x10 == 0x10 then
      if addr < 0x1000 then (m.chrBank0 as int * 0x1000) % chrSize + addr
      else (m.chrBank1 as int * 0x1000) % chrSize + (addr - 0x1000)
    else
      ((m.chrBank0 & 0xFE) as int * 0x2000) % chrSize + addr
  }

  /** The CHR index with the 8 KB mode counting the bank in 4 KB units. */
  function ChrIndex(m: SxRom, addr: Address): int
    requires |m.chr.Bytes()| > 0 && addr < 0x2000
  {
    var chrSize := |m.chr.Bytes()|;
    if m.control & 0x10 == 0x10 then
      if addr < 0x1000 then (m.chrBank0 as int * 0x1000) % chrSize + addr
      else (m.chrBank1 as int * 0x1000) % chrSize + (addr - 0x1000)
    else
      ((m.chrBank0 & 0xFE) as int * 0x1000) % chrSize + addr
  }

  /** A byte of a 4 KB window picked modulo whole 8 KB banks lies inside
      them. */
  lemma Window4K(b: nat, size: nat, off: int)
    requires 0 < size && size % 8192 == 0 && 0 <= off < 0x1000
    ensures 0 <= (b * 0x1000) % size + off < size
  {
    var n := size / 0x1000;
    assert size == n * 0x1000;
    BankWrap(b, n, 0x1000, 0);
  }

  /** A byte of an 8 KB window picked modulo whole 8 KB banks lies inside
      them. */
  lemma Window8K(b: bv8, size: nat, off: int)
    requires 0 < size && size % 8192 == 0 && 0 <= off < 0x2000
    ensures 0 <= ((b & 0xFE) as int * 0x1000) % size + off < size
  {
    ClearLowBit(b);
    var c := b as int / 2;
    assert (b & 0xFE) as int * 0x1000 == c * 0x2000;
    var n := size / 0x2000;
    assert size == n * 0x2000;
    BankWrap(c, n, 0x2000, 0);
  }

  /** The same for the index as written, which picks even 8 KB banks. */
  lemma Window8KAsWritten(b: bv8, size: nat, off: int)
    requires 0 < size && size % 8192 == 0 && 0 <= off < 0x2000
    ensures 0 <= ((b & 0xFE) as int * 0x2000) % size + off < size
  {
    ClearLowBit(b);
    var c := b as int / 2;
    assert (b & 0xFE) as int * 0x2000 == (2 * c) * 0x2000;
    var n := size / 0x2000;
    assert size == n * 0x2000;
    BankWrap(2 * c, n, 0x2000, 0);
  }

  /** Clearing bit 0 rounds down to even. */
  lemma ClearLowBit(x: bv8)
    ensures (x & 0xFE) as int == 2 * (x as int / 2)
  {
  }

  /** Every pattern-table address maps inside CHR memory of whole 8 KB
      banks. */
  lemma ChrIndexInBounds(m: SxRom, addr: Address)
    requires Valid(m) && addr < 0x2000
    ensures |m.chr.Bytes()| % 8192 == 0 ==> 0 <= ChrIndex(m, addr) < |m.chr.Bytes()|
  {
    var size := |m.chr.Bytes()|;
    if size % 8192 == 0 {
      assert size > 0;
      if m.control & 0x10 != 0x10 {
        Window8K(m.chrBank0, size, addr);
        assert ChrIndex(m, addr) == ((m.chrBank0 & 0xFE) as int * 0x1000) % size + addr;
      } else if addr < 0x1000 {
        Window4K(m.chrBank0 as nat, size, addr);
        assert ChrIndex(m, addr) == (m.chrBank0 as int * 0x1000) % size + addr;
      } else {
        Window4K(m.chrBank1 as nat, size, addr - 0x1000);
        assert ChrIndex(m, addr) == (m.chrBank1 as int * 0x1000) % size + (addr - 0x1000);
      }
    }
  }

  /** The index as written is in bounds as well: its 8 KB mode picks whole
      8 KB banks modulo the CHR size. */
  lemma ChrIndexAsWrittenInBounds(m: SxRom, addr: Address)
    requires Valid(m) && addr < 0x2000
    ensures |m.chr.Bytes()| % 8192 == 0 ==> 0 <= ChrIndexAsWritten(m, addr) < |m.chr.Bytes()|
  {
    var size := |m.chr.Bytes()|;
    if size % 8192 == 0 {
      assert size > 0;
      if m.control & 0x10 != 0x10 {
        Window8KAsWritten(m.chrBank0, size, addr);
        assert ChrIndexAsWritten(m, addr) == ((m.chrBank0 & 0xFE) as int * 0x2000) % size + addr;
      } else if addr < 0x1000 {
        Window4K(m.chrBank0 as nat, size, addr);
        assert ChrIndexAsWritten(m, addr) == (m.chrBank0 as int * 0x1000) % size + addr;
      } else {
        Window4K(m.chrBank1 as nat, size, addr - 0x1000);
        assert ChrIndexAsWritten(m, addr) == (m.chrBank1 as int * 0x1000) % size + (addr - 0x1000);
      }
    }
  }

  /** In the 8 KB mode the index as written reaches only even 8 KB banks: with
      16 KB of CHR ROM, bank value 2 shows the first 8 KB again. */
  lemma ChrIndexAsWrittenSkipsBanks()
    ensures ChrIndexAsWritten(SxRom([], ChrRom(Zeros(0x4000)), None, LoadRegInitial, 0, 2, 0, 0), 0) == 0
    ensures ChrIndex(SxRom([], ChrRom(Zeros(0x4000)), None, LoadRegInitial, 0, 2, 0, 0), 0) == 0x2000
  {
  }

  /** With the corrected index, every 8 KB bank is reachable in the 8 KB
      mode: bank value 2k shows bank k. */
  lemma EveryChrBankReachable(m: SxRom, k: nat, addr: Address)
    requires Valid(m) && |m.chr.Bytes()| % 8192 == 0 && k < |m.chr.Bytes()| / 8192
    requires m.control & 0x10 == 0 && m.chrBank0 as int == 2 * k && addr < 0x2000
    ensures ChrIndex(m, addr) == k * 0x2000 + addr
  {
    assert m.chrBank0 & 0xFE == m.chrBank0 by {
      assert m.chrBank0 & 1 == 0;
    }
  }

  function ReadPpu(m: SxRom, vram: seq<bv8>, addr: Address): (r: Outcome<bv8>)
    requires Valid(m)
    ensures |vram| == VramSize && |m.chr.Bytes()| % 8192 == 0 ==> (r.Ok? <==> addr < 0x4000)
    ensures 0x2000 <= addr ==> r == (if addr <= 0x3FFF then NametableRead(GetMirroring(m.control), vram, addr)
                                     else Panic("Invalid ppu read address"))
  {
    if addr <= 0x1FFF then
      ChrIndexInBounds(m, addr);
      ChrRead(m.chr, ChrIndex(m, addr))
    else if addr <= 0x3FFF then
      NametableRead(GetMirroring(m.control), vram, addr)
    else
      Panic("Invalid ppu read address")
  }

  function WritePpu(m: SxRom, vram: seq<bv8>, addr: Address, v: bv8): (r: Outcome<PpuWritten<SxRom>>)
    requires Valid(m)
    ensures r.Ok? ==> Valid(r.value.cart) && r.value.cart == m.(chr := r.value.cart.chr)
    ensures r.Ok? ==> |r.value.vram| == |vram|
    ensures m.chr.ChrRom? && addr < 0x2000 ==> r == Ok(PpuWritten(m, vram))
    ensures |vram| == VramSize && |m.chr.Bytes()| % 8192 == 0 ==> (r.Ok? <==> addr < 0x4000)
  {
    if addr <= 0x1FFF then
      match m.chr
      case ChrRom(_) => Ok(PpuWritten(m, vram))
      case ChrRam(_) =>
        ChrIndexInBounds(m, addr);
        var chr :- ChrWrite(m.chr, ChrIndex(m, addr), v);
        Ok(PpuWritten(m.(chr := chr), vram))
    else if addr <= 0x3FFF then
      var vram' :- NametableWrite(GetMirroring(m.control), vram, addr, v);
      Ok(PpuWritten(m, vram'))
    else
      Panic("Invalid ppu write address")
  }

  /** CHR RAM keeps what the PPU writes, at the address it was written. */
  lemma ChrRamRoundTrip(m: SxRom, vram: seq<bv8>, a: Address, v: bv8)
    requires Valid(m) && m.chr.ChrRam? && |m.chr.Bytes()| % 8192 == 0 && a < 0x2000
    ensures WritePpu(m, vram, a, v).Ok?
    ensures ReadPpu(WritePpu(m, vram, a, v).value.cart, vram, a) == Ok(v)
  {
    ChrIndexInBounds(m, a);
  }
}
