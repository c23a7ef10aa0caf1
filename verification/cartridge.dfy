/** Mapper selection and the cartridge slot (covnes/src/nes/mappers/mod.rs):
    the iNES mapper number picks NROM, SxROM or UxROM, and each of the four
    bus operations is forwarded to the mapper in the slot. An empty slot
    aborts on every access. */
module Cartridges {
  import opened Common
  import opened MapperCommon
  import RomFiles
  import Nrom
  import SxRom
  import UxRom

  datatype Cartridge =
    | NotConnected
    | NROM(nrom: Nrom.Nrom)
    | SxROM(sxrom: SxRom.SxRom)
    | UxROM(uxrom: UxRom.UxRom)

  /** Every mapper in the slot is one its constructor could have built. */
  predicate Valid(c: Cartridge) {
    match c
    case NotConnected => true
    case NROM(m) => Nrom.Valid(m)
    case SxROM(m) => SxRom.Valid(m)
    case UxROM(m) => UxRom.Valid(m)
  }

  /** The constructor an `Outcome` of a mapper's `from_rom` is wrapped in. */
  function Wrap<M>(o: Outcome<M>, f: M -> Cartridge): (r: Outcome<Cartridge>)
    ensures r.Ok? <==> o.Ok?
    ensures r.Ok? ==> r.value == f(o.value)
    ensures o.Err? ==> r == Err(o.error)
    ensures o.Panic? ==> r == Panic(o.reason)
  {
    match o
    case Ok(m) => Ok(f(m))
    case Err(e) => Err(e)
    case Panic(e) => Panic(e)
  }

  function FromRom(rom: RomFiles.RomFile): (r: Outcome<Cartridge>)
    ensures rom.mapper == 0 ==> r == Wrap(Nrom.FromRom(rom), m => NROM(m))
    ensures rom.mapper == 1 ==> r == Wrap(SxRom.FromRom(rom), m => SxROM(m))
    ensures rom.mapper == 2 ==> r == Wrap(UxRom.FromRom(rom), m => UxROM(m))
    ensures rom.mapper > 2 ==> r == Err("Unsupported mapper: " + Decimal(rom.mapper))
    ensures r.Ok? ==> Valid(r.value) && !r.value.NotConnected?
  {
    match rom.mapper
    case 0 =>
      var m :- Nrom.FromRom(rom);
      Ok(NROM(m))
    case 1 =>
      var m :- SxRom.FromRom(rom);
      Ok(SxROM(m))
    case 2 =>
      var m :- UxRom.FromRom(rom);
      Ok(UxROM(m))
    case i =>
      Err("Unsupported mapper: " + Decimal(i))
  }

  function ReadCpu(c: Cartridge, addr: Address): (r: Outcome<bv8>)
    requires Valid(c)
    ensures c.NotConnected? ==> r.Panic?
    ensures c.NROM? ==> r == Ok(Nrom.ReadCpu(c.nrom, addr))
    ensures c.SxROM? ==> r == SxRom.ReadCpu(c.sxrom, addr)
    ensures c.UxROM? ==> r == Ok(UxRom.ReadCpu(c.uxrom, addr))
  {
    match c
    case NotConnected => Panic("not implemented")
    case NROM(m) => Ok(Nrom.ReadCpu(m, addr))
    case SxROM(m) => SxRom.ReadCpu(m, addr)
    case UxROM(m) => Ok(UxRom.ReadCpu(m, addr))
  }

  function WriteCpu(c: Cartridge, addr: Address, v: bv8): (r: Outcome<Cartridge>)
    requires Valid(c)
    ensures c.NotConnected? ==> r.Panic?
    ensures r.Ok? ==> Valid(r.value)
    ensures r.Ok? ==> r.value.NROM? == c.NROM? && r.value.SxROM? == c.SxROM? && r.value.UxROM? == c.UxROM?
    ensures c.NROM? ==> r == Ok(NROM(Nrom.WriteCpu(c.nrom, addr, v)))
    ensures c.SxROM? ==> r == Wrap(SxRom.WriteCpu(c.sxrom, addr, v), m => SxROM(m))
    ensures c.UxROM? ==> r == Ok(UxROM(UxRom.WriteCpu(c.uxrom, addr, v)))
  {
    match c
    case NotConnected => Panic("not implemented")
    case NROM(m) => Ok(NROM(Nrom.WriteCpu(m, addr, v)))
    case SxROM(m) =>
      var m' :- SxRom.WriteCpu(m, addr, v);
      Ok(SxROM(m'))
    case UxROM(m) => Ok(UxROM(UxRom.WriteCpu(m, addr, v)))
  }

  function ReadPpu(c: Cartridge, vram: seq<bv8>, addr: Address): (r: Outcome<bv8>)
    requires Valid(c)
    ensures c.NotConnected? ==> r.Panic?
    ensures c.NROM? ==> r == Nrom.ReadPpu(c.nrom, vram, addr)
    ensures c.SxROM? ==> r == SxRom.ReadPpu(c.sxrom, vram, addr)
    ensures c.UxROM? ==> r == UxRom.ReadPpu(c.uxrom, vram, addr)
  {
    match c
    case NotConnected => Panic("not implemented")
    case NROM(m) => Nrom.ReadPpu(m, vram, addr)
    case SxROM(m) => SxRom.ReadPpu(m, vram, addr)
    case UxROM(m) => UxRom.ReadPpu(m, vram, addr)
  }

  /** The mapper's PPU write, with its cartridge put back in the slot. */
  function Slot<M>(o: Outcome<PpuWritten<M>>, f: M -> Cartridge): (r: Outcome<PpuWritten<Cartridge>>)
    ensures r.Ok? <==> o.Ok?
    ensures r.Ok? ==> r.value == PpuWritten(f(o.value.cart), o.value.vram)
    ensures o.Panic? ==> r == Panic(o.reason)
    ensures o.Err? ==> r == Err(o.error)
  {
    match o
    case Ok(w) => Ok(PpuWritten(f(w.cart), w.vram))
    case Err(e) => Err(e)
    case Panic(e) => Panic(e)
  }

  function WritePpu(c: Cartridge, vram: seq<bv8>, addr: Address, v: bv8): (r: Outcome<PpuWritten<Cartridge>>)
    requires Valid(c)
    ensures c.NotConnected? ==> r.Panic?
    ensures r.Ok? ==> Valid(r.value.cart) && |r.value.vram| == |vram|
    ensures c.NROM? ==> r == Slot(Nrom.WritePpu(c.nrom, vram, addr, v), m => NROM(m))
    ensures c.SxROM? ==> r == Slot(SxRom.WritePpu(c.sxrom, vram, addr, v), m => SxROM(m))
    ensures c.UxROM? ==> r == Slot(UxRom.WritePpu(c.uxrom, vram, addr, v), m => UxROM(m))
  {
    match c
    case NotConnected => Panic("not implemented")
    case NROM(m) => Slot(Nrom.WritePpu(m, vram, addr, v), m => NROM(m))
    case SxROM(m) => Slot(SxRom.WritePpu(m, vram, addr, v), m => SxROM(m))
    case UxROM(m) => Slot(UxRom.WritePpu(m, vram, addr, v), m => UxROM(m))
  }

  /** The PRG RAM of the cartridge in the slot, if any. */
  function PrgRam(c: Cartridge): Option<seq<bv8>> {
    match c
    case NotConnected => None
    case NROM(m) => m.prgRam
    case SxROM(m) => m.prgRam
    case UxROM(m) => m.prgRam
  }

  /** Whatever the mapper, $6000-$7FFF is plain storage when the cartridge
      has PRG RAM and reads 0 when it has none. */
  lemma PrgRamRoundTrip(c: Cartridge, a: Address, b: Address, v: bv8)
    requires Valid(c) && !c.NotConnected? && 0x6000 <= a <= 0x7FFF && 0x6000 <= b <= 0x7FFF
    ensures WriteCpu(c, a, v).Ok?
    ensures ReadCpu(WriteCpu(c, a, v).value, b)
         == Ok(if PrgRam(c).Some? && a == b then v else if PrgRam(c).Some? then PrgRam(c).value[b - 0x6000] else 0)
  {
    match c
    case NROM(m) =>
      Nrom.WriteThenReadCpu(m, a, b, v);
    case SxROM(m) =>
      SxRom.WriteThenReadRam(m, a, b, v);
    case UxROM(m) =>
      UxRom.WriteThenReadRam(m, a, b, v);
  }

  /** Behind every mapper a nametable write to $2000-$3FFF reads back. */
  lemma NametableRoundTrip(c: Cartridge, vram: seq<bv8>, a: Address, v: bv8)
    requires Valid(c) && !c.NotConnected? && |vram| == VramSize && 0x2000 <= a <= 0x3FFF
    ensures WritePpu(c, vram, a, v).Ok?
    ensures ReadPpu(WritePpu(c, vram, a, v).value.cart, WritePpu(c, vram, a, v).value.vram, a) == Ok(v)
  {
    match c
    case NROM(m) =>
      NametableWriteRead(m.mirroring, vram, a, a, v);
    case SxROM(m) =>
      NametableWriteRead(SxRom.GetMirroring(m.control), vram, a, a, v);
    case UxROM(m) =>
      NametableWriteRead(m.mirroring, vram, a, a, v);
  }
}
