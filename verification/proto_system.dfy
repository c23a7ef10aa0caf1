/** The prototype's bus (src/system.rs, `CpuHostAccess for &Nes`): 2K of
    RAM mirrored through 0000-1FFF and a mapper-0 cartridge from 4020. The
    PPU and APU registers read as 0 and ignore writes; the test registers
    at 4018-401F panic. */
module ProtoBus {
  import opened Common
  import ProtoRoms
  import ProtoCartridge

  const RamSize: nat := 2048

  datatype Bus = Bus(cartridge: ProtoCartridge.Mapper0, ram: seq<bv8>)

  predicate Valid(bus: Bus) {
    |bus.ram| == RamSize
  }

  /** The bus of a freshly loaded machine: RAM cleared. */
  function FromRom(rom: ProtoRoms.ProtoRom): (bus: Bus)
    ensures Valid(bus) && forall i :: 0 <= i < RamSize ==> bus.ram[i] == 0
    ensures bus.cartridge == ProtoCartridge.FromRom(rom)
  {
    Bus(ProtoCartridge.FromRom(rom), seq(RamSize, _ => 0))
  }

  function Read(bus: Bus, addr: ProtoCartridge.Addr): (r: Outcome<bv8>)
    requires Valid(bus)
    ensures !r.Err?
    ensures 0x2000 <= addr <= 0x4017 ==> r == Ok(0)
    ensures 0x4018 <= addr <= 0x401F ==> r.Panic?
    ensures addr >= 0x4020 ==> r == ProtoCartridge.ReadCpu(bus.cartridge, addr)
  {
    var a := addr;
    if a <= 0x07FF then Ok(bus.ram[a])
    else if a <= 0x0FFF then Ok(bus.ram[a - 0x800])
    else if a <= 0x17FF then Ok(bus.ram[a - 0x1000])
    else if a <= 0x1FFF then Ok(bus.ram[a - 0x1800])
    else if a <= 0x3FFF then Ok(0)
    else if a <= 0x4017 then Ok(0)
    else if a <= 0x401F then Panic("Read from CPU test stuff")
    else ProtoCartridge.ReadCpu(bus.cartridge, addr)
  }

  function Write(bus: Bus, addr: ProtoCartridge.Addr, value: bv8): (r: Outcome<Bus>)
    requires Valid(bus)
    ensures r.Ok? <==> addr <= 0x4017
    ensures !r.Err?
    ensures r.Ok? ==> Valid(r.value) && r.value.cartridge == bus.cartridge
    ensures 0x2000 <= addr <= 0x4017 ==> r == Ok(bus)
  {
    var a := addr;
    if a <= 0x07FF then Ok(bus.(ram := bus.ram[a := value]))
    else if a <= 0x0FFF then Ok(bus.(ram := bus.ram[a - 0x800 := value]))
    else if a <= 0x17FF then Ok(bus.(ram := bus.ram[a - 0x1000 := value]))
    else if a <= 0x1FFF then Ok(bus.(ram := bus.ram[a - 0x1800 := value]))
    else if a <= 0x3FFF then Ok(bus)
    else if a <= 0x4017 then Ok(bus)
    else if a <= 0x401F then Panic("Write to CPU test stuff")
    else
      match ProtoCartridge.WriteCpu(bus.cartridge, addr, value)
      case Ok(_) => Ok(bus)
      case Err(e) => Err(e)
      case Panic(p) => Panic(p)
  }

  /** Each address below 2000 names byte `addr % 0x800` of RAM. */
  lemma RamMirrors(bus: Bus, addr: ProtoCartridge.Addr)
    requires Valid(bus) && addr <= 0x1FFF
    ensures Read(bus, addr) == Ok(bus.ram[addr % 0x800])
  {
  }

  /** A RAM write is seen by a read of any of the four mirrors of its
      address, and by no other read of RAM. */
  lemma RamWriteRead(bus: Bus, a: ProtoCartridge.Addr, b: ProtoCartridge.Addr, v: bv8)
    requires Valid(bus) && a <= 0x1FFF && b <= 0x1FFF
    ensures Write(bus, a, v).Ok?
    ensures Read(Write(bus, a, v).value, b) == Ok(if a % 0x800 == b % 0x800 then v else bus.ram[b % 0x800])
  {
    var bus' := Write(bus, a, v).value;
    assert bus'.ram == bus.ram[a % 0x800 := v];
    RamMirrors(bus', b);
  }

  /** What a fresh machine reads at C000: the first byte of a 16K ROM, the
      first of the second half of a 32K one. */
  lemma FirstByte(rom: ProtoRoms.ProtoRom)
    requires |rom.prgRom| == 16384 || |rom.prgRom| == 32768
    ensures Read(FromRom(rom), 0xC000) == Ok(rom.prgRom[0x4000 % |rom.prgRom|])
  {
    ProtoCartridge.ReadsPrg(rom, 0xC000);
  }
}

/** The prototype's machine (src/system.rs): the prototype CPU on its
    bus. */
module ProtoSystem {
  import opened Common
  import ProtoRoms
  import opened ProtoCpu
  import Cpu6502
  import ProtoProgress

  import ProtoBus

  datatype Nes = Nes(cpu: Cpu, bus: ProtoBus.Bus)

  predicate Valid(nes: Nes) {
    ProtoBus.Valid(nes.bus)
  }

  /** `from_rom`: the CPU starts at C000 with every register 0, RAM
      cleared. */
  function FromRom(rom: ProtoRoms.ProtoRom): (nes: Nes)
    ensures Valid(nes)
    ensures nes.cpu == Cpu(0xC000, 0, 0, 0, 0, 0, FetchOpcode)
    ensures nes.bus == ProtoBus.FromRom(rom)
  {
    Nes(Cpu(0xC000, 0, 0, 0, 0, 0, FetchOpcode), ProtoBus.FromRom(rom))
  }

  // ---------------------------------------------------------------------
  // Cycles

  /** The machine after the CPU's cycle ended in `next`; an illegal opcode
      panics. */
  function Advance(nes: Nes, next: Next): (r: Outcome<Nes>)
    ensures r.Ok? <==> next.Continue?
    ensures r.Ok? ==> r.value == nes.(cpu := next.cpu)
  {
    match next
    case IllegalOpcode(_) => Panic("Illegal opcode")
    case Continue(c) => Ok(nes.(cpu := c))
  }

  /** The bus access a cycle asks for: the bus after it and the byte it
      read (0 for no read). */
  function Access(bus: ProtoBus.Bus, req: Cpu6502.Access): (r: Outcome<(ProtoBus.Bus, bv8)>)
    requires ProtoBus.Valid(bus)
    ensures r.Ok? ==> ProtoBus.Valid(r.value.0) && r.value.0.cartridge == bus.cartridge
    ensures r.Ok? && !req.ReadAt? ==> r.value.1 == 0
    ensures !r.Err?
  {
    match req
    case NoAccess => Ok((bus, 0))
    case ReadAt(a) =>
      (match ProtoBus.Read(bus, a as int)
       case Ok(d) => Ok((bus, d))
       case Err(e) => Err(e)
       case Panic(p) => Panic(p))
    case WriteAt(a, v) =>
      (match ProtoBus.Write(bus, a as int, v)
       case Ok(bus') => Ok((bus', 0))
       case Err(e) => Err(e)
       case Panic(p) => Panic(p))
  }

  /** `Cpu::tick` on this bus: the access the cycle asks for, then the
      CPU's step with the byte read. */
  function Tick(nes: Nes): (r: Outcome<Nes>)
    requires Valid(nes)
    ensures r.Ok? ==> Valid(r.value) && r.value.bus.cartridge == nes.bus.cartridge
    ensures !r.Err?
  {
    match Access(nes.bus, Request(nes.cpu))
    case Ok((bus, d)) => Advance(nes.(bus := bus), Step(nes.cpu, d))
    case Err(e) => Err(e)
    case Panic(p) => Panic(p)
  }

  /** `n` cycles, stopping at the first panic. */
  function Ticks(nes: Nes, n: nat): (r: Outcome<Nes>)
    requires Valid(nes)
    ensures r.Ok? ==> Valid(r.value)
    ensures !r.Err?
    decreases n
  {
    if n == 0 then Ok(nes)
    else
      match Ticks(nes, n - 1)
      case Ok(m) => Tick(m)
      case Err(e) => Err(e)
      case Panic(p) => Panic(p)
  }

  /** A cycle inside an instruction brings the next opcode fetch closer. */
  lemma TickProgresses(nes: Nes)
    requires Valid(nes) && nes.cpu.state != FetchOpcode && Tick(nes).Ok?
    ensures ProtoProgress.Remaining(Tick(nes).value.cpu.state) < ProtoProgress.Remaining(nes.cpu.state)
  {
    var d := Access(nes.bus, Request(nes.cpu)).value.1;
    assert Step(nes.cpu, d) == Continue(After(nes.cpu, d));
    ProtoProgress.CycleProgresses(nes.cpu, d);
  }

  /** None of the first `n - 1` cycles from `nes` ended at an opcode
      fetch. */
  ghost predicate InsideInstruction(nes: Nes, n: nat)
    requires Valid(nes)
  {
    forall k :: 1 <= k < n ==> Ticks(nes, k).Ok? && Ticks(nes, k).value.cpu.state != FetchOpcode
  }

  /** One more cycle of an unfinished instruction: it extends the run,
      and it brings the next opcode fetch closer. */
  lemma TickExtends(nes: Nes, n: nat, cur: Nes)
    requires Valid(nes) && Ticks(nes, n) == Ok(cur) && cur.cpu.state != FetchOpcode
    requires InsideInstruction(nes, n) && Tick(cur).Ok?
    ensures Ticks(nes, n + 1) == Tick(cur)
    ensures InsideInstruction(nes, n + 1)
    ensures ProtoProgress.Remaining(Tick(cur).value.cpu.state) < ProtoProgress.Remaining(cur.cpu.state)
  {
    TickProgresses(cur);
    InsideExtends(nes, n, cur);
  }

  lemma InsideExtends(nes: Nes, n: nat, cur: Nes)
    requires Valid(nes) && Ticks(nes, n) == Ok(cur) && cur.cpu.state != FetchOpcode
    requires InsideInstruction(nes, n)
    ensures InsideInstruction(nes, n + 1)
  {
    forall k | 1 <= k < n + 1
      ensures Ticks(nes, k).Ok? && Ticks(nes, k).value.cpu.state != FetchOpcode
    {
      if k == n {
        assert Ticks(nes, k) == Ok(cur);
      }
    }
  }

  /** `step_cpu_instruction`: cycles until the CPU is back at an opcode
      fetch, at least one. */
  method StepInstruction(nes: Nes) returns (r: Outcome<(Nes, nat)>)
    requires Valid(nes)
    ensures !r.Err?
    ensures r.Ok? ==> 1 <= r.value.1 <= 8
    ensures r.Ok? ==> Ticks(nes, r.value.1) == Ok(r.value.0) && r.value.0.cpu.state == FetchOpcode
    ensures r.Ok? ==> InsideInstruction(nes, r.value.1)
  {
    var first := Tick(nes);
    if !first.Ok? {
      return Panic(first.reason);
    }
    var cur := first.value;
    var ticks: nat := 1;
    assert Ticks(nes, 1) == Ok(cur);
    if cur.cpu.state != FetchOpcode {
      ProtoProgress.CycleProgresses(cur.cpu, 0);
    }
    while cur.cpu.state != FetchOpcode
      invariant Valid(cur) && 1 <= ticks && Ticks(nes, ticks) == Ok(cur)
      invariant ticks + ProtoProgress.Remaining(cur.cpu.state) <= 8
      invariant InsideInstruction(nes, ticks)
      decreases ProtoProgress.Remaining(cur.cpu.state)
    {
      var next := Tick(cur);
      if !next.Ok? {
        return Panic(next.reason);
      }
      TickExtends(nes, ticks, cur);
      cur := next.value;
      ticks := ticks + 1;
    }
    return Ok((cur, ticks));
  }

  /** The first instruction is fetched from C000: the start of a 16K ROM,
      the start of the second half of a 32K one. */
  lemma FirstFetch(rom: ProtoRoms.ProtoRom)
    requires |rom.prgRom| == 16384 || |rom.prgRom| == 32768
    ensures Request(FromRom(rom).cpu) == Cpu6502.ReadAt(0xC000)
    ensures ProtoBus.Read(FromRom(rom).bus, 0xC000) == Ok(rom.prgRom[0x4000 % |rom.prgRom|])
  {
    ProtoBus.FirstByte(rom);
  }
}
