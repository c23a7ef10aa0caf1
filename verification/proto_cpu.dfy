/** The prototype 6502 core (src/cpu.rs), the forerunner of the covnes
    CPU. It shares the operation semantics of `Alu` and the cycle structure
    of `Cpu6502`, and differs in what this module spells out: the status
    byte `p` is a raw byte whose bits 4 and 5 are ordinary storage, there
    are no NMI/IRQ/reset inputs (BRK is the only interrupt sequence), BRK
    pushes `p` unchanged and leaves I alone, and the undocumented immediate
    operations and SHX/SHY are not decoded. */
module ProtoCpu {
  import opened Common
  import opened Alu
  import Cpu6502

  /** The operation an addressing-mode sequence finally performs. */
  datatype Op = OpRead(r: ReadOp) | OpReadWrite(rw: ReadWriteOp) | OpWrite(w: WriteOp)

  /** The pipeline state: which cycle of which instruction comes next. */
  datatype S =
    | FetchOpcode
    | ZeroPage(op: Op)
    | ZeroPageX(op: Op)
    | ZeroPageY(op: Op)
    | AbsoluteX(op: Op)
    | AbsoluteY(op: Op)
    | Absolute(op: Op)
    | IndexedIndirect(op: Op)
    | IndexedIndirect2(op: Op, base: bv8)
    | IndexedIndirect3(op: Op, base: bv8)
    | IndirectIndexed(op: Op)
    | IndirectIndexed2(op: Op, base: bv8)
    | AddLowHigh(op: Op, addr: bv16, lowWord: bv16)
    | AddLowHighNoPen(op: Op, addr: bv16, low: bv8)
    | FakeThenActual(op: Op, fake: bv16, addr: bv16)
    | ExecuteOnAddress(op: Op, addr: bv16)
    | WriteBackThenWrite(addr: bv16, original: bv8, modified: bv8)
    | WriteValue(addr: bv16, value: bv8)
    | ImmediateR(ro: ReadOp)
    | AccRW(rw: ReadWriteOp)
    | Relative(bo: BranchOp)
    | Relative2(offset: bv8)
    | Relative3(addr: bv16)
    | Implied(io: ImpliedOp)
    | BRK | BRK2 | BRK3 | BRK4 | BRK5 | BRK6(low: bv8)
    | RTI | RTI2 | RTI3 | RTI4 | RTI5(low: bv8)
    | RTS | RTS2 | RTS3 | RTS4(low: bv8) | RTS5
    | PHA | PHP | PHPA(value: bv8)
    | PLA | PLA2 | PLA3
    | PLP | PLP2 | PLP3
    | JSR | JSR2(low: bv8) | JSR3(low: bv8) | JSR4(low: bv8) | JSR5(low: bv8)
    | JMPAbsolute | JMPAbsolute2(low: bv8)
    | JMPIndirect | JMPIndirect2(low: bv8) | JMPIndirect3(pointer: bv16) | JMPIndirect4(pointer: bv16, low: bv8)

  datatype Cpu = Cpu(pc: bv16, s: bv8, p: bv8, a: bv8, x: bv8, y: bv8, state: S)

  /** The CPU after a cycle, or the opcode that made it panic. */
  datatype Next = Continue(cpu: Cpu) | IllegalOpcode(opcode: bv8)

  predicate IsAtInstruction(c: Cpu) {
    c.state == FetchOpcode
  }

  // ---------------------------------------------------------------------
  // The status byte

  /** `get_flag`: every bit of the mask is set. */
  predicate GetFlag(p: bv8, mask: bv8) {
    p & mask == mask
  }

  /** `set_flag_value`: set or clear the masked bits. */
  function SetFlagValue(p: bv8, mask: bv8, on: bool): (q: bv8)
    ensures q & !mask == p & !mask
    ensures q & mask == (if on then mask else 0)
  {
    if on then p | mask else p & !mask
  }

  /** `get_d` as written: it tests the I mask, not D. */
  predicate GetDAsWritten(p: bv8) {
    GetFlag(p, I)
  }

  /** `get_d` as its name says: the decimal flag. */
  predicate GetD(p: bv8) {
    GetFlag(p, D)
  }

  /** The registers as the shared operations see them: the six flags of
      `p`, without bits 4 and 5. */
  function ToRegs(c: Cpu): Regs {
    Regs(c.a, c.x, c.y, c.s, Unpack(c.p))
  }

  /** The CPU after an operation changed its registers: the flag helpers
      touch only their own bit, so bits 4 and 5 of `p` keep their value. */
  function WithRegs(c: Cpu, r: Regs): Cpu {
    c.(a := r.a, x := r.x, y := r.y, s := r.s, p := Pack(r.f) | (c.p & 0x30))
  }

  /** PLP and RTI: B cleared, bit 5 set, the byte stored as it is. */
  function Pulled(v: bv8): bv8 {
    (v & !0x10) | 0x20
  }

  // ---------------------------------------------------------------------
  // Branches

  /** The prototype's branch target: only offsets 1 to 127 count forward;
      every other offset, 0 included, counts back from 256. */
  function BranchTargetAsWritten(pc: bv16, offset: bv8): bv16 {
    if 0 < offset < 0x80 then pc + (offset as bv16) else pc - (256 - (offset as bv16))
  }

  /** The prototype's dummy-read address after a branch that crosses a
      page: the old page with the low byte of its own target plus the
      offset once more, the same double add as covnes. */
  function BranchFixupAsWritten(pc: bv16, offset: bv8): bv16 {
    Cpu6502.BranchFixupAddressAsWritten(pc, BranchTargetAsWritten(pc, offset), offset)
  }

  // ---------------------------------------------------------------------
  // Decode

  /** The opcodes the covnes core decodes and the prototype does not:
      ANC, ALR, ARR, AXS, SHY and SHX. */
  predicate LaterOnly(opcode: bv8) {
    opcode == 0x0B || opcode == 0x2B || opcode == 0x4B || opcode == 0x6B
    || opcode == 0xCB || opcode == 0x9C || opcode == 0x9E
  }

  function OpFromLater(op: Cpu6502.Op): Option<Op> {
    match op
    case OpRead(r) => Some(OpRead(r))
    case OpReadWrite(rw) => Some(OpReadWrite(rw))
    case OpWrite(w) => Some(OpWrite(w))
    case OpSh(_) => None
  }

  /** The prototype's first state for a first state of the covnes core,
      when it has one. */
  function FromLater(s: Cpu6502.S): Option<S> {
    match s
    case ZeroPage(op) => if OpFromLater(op).Some? then Some(ZeroPage(OpFromLater(op).value)) else None
    case ZeroPageX(op) => if OpFromLater(op).Some? then Some(ZeroPageX(OpFromLater(op).value)) else None
    case ZeroPageY(op) => if OpFromLater(op).Some? then Some(ZeroPageY(OpFromLater(op).value)) else None
    case Absolute(op) => if OpFromLater(op).Some? then Some(Absolute(OpFromLater(op).value)) else None
    case AbsoluteX(op) => if OpFromLater(op).Some? then Some(AbsoluteX(OpFromLater(op).value)) else None
    case AbsoluteY(op) => if OpFromLater(op).Some? then Some(AbsoluteY(OpFromLater(op).value)) else None
    case IndexedIndirect(op) =>
      if OpFromLater(op).Some? then Some(IndexedIndirect(OpFromLater(op).value)) else None
    case IndirectIndexed(op) =>
      if OpFromLater(op).Some? then Some(IndirectIndexed(OpFromLater(op).value)) else None
    case ImmediateR(ro) => Some(ImmediateR(ro))
    case AccRW(rw) => Some(AccRW(rw))
    case Relative(bo) => Some(Relative(bo))
    case Implied(io) => Some(Implied(io))
    case Int(i) => if i == Cpu6502.Brk then Some(BRK) else None
    case RTI => Some(RTI)
    case RTS => Some(RTS)
    case PHA => Some(PHA)
    case PHP => Some(PHP)
    case PLA => Some(PLA)
    case PLP => Some(PLP)
    case JSR => Some(JSR)
    case JMPAbsolute => Some(JMPAbsolute)
    case JMPIndirect => Some(JMPIndirect)
    case _ => None
  }

  /** Opcode decode: the covnes table without the opcodes added later;
      `None` for the opcodes that panic. */
  function Decode(opcode: bv8): (r: Option<S>)
    ensures LaterOnly(opcode) ==> r.None?
  {
    if LaterOnly(opcode) then None
    else
      match Cpu6502.Decode(opcode)
      case None => None
      case Some(s) => FromLater(s)
  }

  // ---------------------------------------------------------------------
  // One cycle

  /** The one bus access of the cycle the CPU is about to perform. */
  function Request(c: Cpu): Cpu6502.Access {
    var pc := c.pc;
    var stack := Cpu6502.Stack(c.s);
    match c.state
    case FetchOpcode | ImmediateR(_) | ZeroPage(_) | ZeroPageX(_) | ZeroPageY(_) | Absolute(_)
       | AbsoluteX(_) | AbsoluteY(_) | IndexedIndirect(_) | IndirectIndexed(_) | AccRW(_) | Relative(_)
       | RTS5 | JSR | JSR5(_) | JMPAbsolute | JMPAbsolute2(_) | JMPIndirect | JMPIndirect2(_) =>
      Cpu6502.ReadAt(pc)
    case FakeThenActual(_, fake, _) => Cpu6502.ReadAt(fake)
    case ExecuteOnAddress(op, addr) =>
      if op.OpWrite? then Cpu6502.WriteAt(addr, ExecWrite(op.w, ToRegs(c))) else Cpu6502.ReadAt(addr)
    case WriteBackThenWrite(addr, original, _) => Cpu6502.WriteAt(addr, original)
    case WriteValue(addr, value) => Cpu6502.WriteAt(addr, value)
    case AddLowHighNoPen(_, addr, _) => Cpu6502.ReadAt(addr)
    case AddLowHigh(_, addr, _) => Cpu6502.ReadAt(addr)
    case IndexedIndirect2(_, base) => Cpu6502.ReadAt(base as bv16)
    case IndexedIndirect3(_, base) => Cpu6502.ReadAt((base + c.x) as bv16)
    case IndirectIndexed2(_, base) => Cpu6502.ReadAt(base as bv16)
    case Relative2(_) | Implied(_) | BRK | RTI | RTS | PHA | PHP | PLA | PLP => Cpu6502.NoAccess
    case Relative3(addr) => Cpu6502.ReadAt(addr)
    case BRK2 | JSR3(_) => Cpu6502.WriteAt(stack, Hi(pc))
    case BRK3 | JSR4(_) => Cpu6502.WriteAt(stack, Lo(pc))
    case BRK4 => Cpu6502.WriteAt(stack, c.p)
    case BRK5 => Cpu6502.ReadAt(0xFFFE)
    case BRK6(_) => Cpu6502.ReadAt(0xFFFF)
    case RTI2 | RTI3 | RTI4 | RTI5(_) | RTS2 | RTS3 | RTS4(_) | PLA2 | PLP2 | JSR2(_) => Cpu6502.ReadAt(stack)
    case PLA3 | PLP3 => Cpu6502.ReadAt(Cpu6502.Stack(c.s + 1))
    case PHPA(value) => Cpu6502.WriteAt(stack, value)
    case JMPIndirect3(pointer) => Cpu6502.ReadAt(pointer)
    case JMPIndirect4(pointer, _) => Cpu6502.ReadAt(Word(Hi(pointer), Lo(pointer) + 1))
  }

  /** The program counter after a cycle other than an opcode fetch. */
  function NextPc(c: Cpu, data: bv8): bv16 {
    var pc := c.pc;
    match c.state
    case ImmediateR(_) | ZeroPage(_) | ZeroPageX(_) | ZeroPageY(_) | IndexedIndirect(_)
       | IndirectIndexed(_) | Relative(_) | RTS5 | JSR | JMPAbsolute | JMPIndirect | BRK => pc + 1
    case Absolute(_) | AbsoluteX(_) | AbsoluteY(_) => pc + 2
    case Relative2(offset) => Cpu6502.BranchTarget(pc, offset)
    case BRK6(low) => Word(data, low)
    case RTI5(low) => Word(data, low)
    case RTS4(low) => Word(data, low)
    case JSR5(low) => Word(data, low)
    case JMPAbsolute2(low) => Word(data, low)
    case JMPIndirect4(_, low) => Word(data, low)
    case _ => pc
  }

  /** The registers and status byte after a cycle other than an opcode
      fetch (the program counter and state are left to the caller). */
  function NextRegs(c: Cpu, data: bv8): Cpu {
    var r := ToRegs(c);
    match c.state
    case ImmediateR(ro) => WithRegs(c, ExecRead(ro, r, data))
    case ExecuteOnAddress(op, _) =>
      (match op
       case OpRead(ro) => WithRegs(c, ExecRead(ro, r, data))
       case OpReadWrite(rw) => WithRegs(c, ExecRmw(rw, r, data).regs)
       case OpWrite(_) => c)
    case AccRW(rw) =>
      var w := ExecRmw(rw, r, r.a);
      WithRegs(c, w.regs.(a := w.value))
    case Implied(io) => WithRegs(c, ExecImplied(io, r))
    case BRK2 | BRK3 | BRK4 | PHPA(_) | JSR3(_) | JSR4(_) => c.(s := c.s - 1)
    case RTI2 | RTI4 | RTS2 | RTS3 => c.(s := c.s + 1)
    case RTI3 | PLP3 => c.(s := c.s + 1, p := Pulled(data))
    case PLA3 => WithRegs(c, SetZN(r.(s := c.s + 1), data).(a := data))
    case _ => c
  }

  /** The pipeline state after a cycle other than an opcode fetch. */
  function NextState(c: Cpu, data: bv8): S {
    var pc := c.pc;
    match c.state
    case FetchOpcode => FetchOpcode
    case ImmediateR(_) => FetchOpcode
    case AccRW(_) => FetchOpcode
    case Implied(_) => FetchOpcode
    case WriteValue(_, _) => FetchOpcode
    case ZeroPage(op) => ExecuteOnAddress(op, data as bv16)
    case ZeroPageX(op) => FakeThenActual(op, data as bv16, (data + c.x) as bv16)
    case ZeroPageY(op) => FakeThenActual(op, data as bv16, (data + c.y) as bv16)
    case FakeThenActual(op, _, addr) => ExecuteOnAddress(op, addr)
    case ExecuteOnAddress(op, addr) =>
      if op.OpReadWrite? then WriteBackThenWrite(addr, data, ExecRmw(op.rw, ToRegs(c), data).value)
      else FetchOpcode
    case WriteBackThenWrite(addr, _, modified) => WriteValue(addr, modified)
    case Absolute(op) => AddLowHighNoPen(op, pc + 1, data)
    case AbsoluteX(op) => AddLowHigh(op, pc + 1, (data as bv16) + (c.x as bv16))
    case AbsoluteY(op) => AddLowHigh(op, pc + 1, (data as bv16) + (c.y as bv16))
    case AddLowHighNoPen(op, _, low) => ExecuteOnAddress(op, Word(data, low))
    case AddLowHigh(op, _, lowWord) =>
      var target := Word(data, Lo(lowWord));
      if lowWord > 0xFF then FakeThenActual(op, target, target + 0x100)
      else if op.OpRead? then ExecuteOnAddress(op, target)
      else FakeThenActual(op, target, target)
    case IndexedIndirect(op) => IndexedIndirect2(op, data)
    case IndexedIndirect2(op, base) => IndexedIndirect3(op, base)
    case IndexedIndirect3(op, base) => AddLowHighNoPen(op, (base + c.x + 1) as bv16, data)
    case IndirectIndexed(op) => IndirectIndexed2(op, data)
    case IndirectIndexed2(op, base) => AddLowHigh(op, (base + 1) as bv16, (data as bv16) + (c.y as bv16))
    case Relative(bo) => if Taken(bo, ToRegs(c)) then Relative2(data) else FetchOpcode
    case Relative2(offset) =>
      var next := Cpu6502.BranchTarget(pc, offset);
      if Hi(pc) != Hi(next) then Relative3(Cpu6502.BranchFixupAddress(pc, next)) else FetchOpcode
    case Relative3(_) => FetchOpcode
    case BRK => BRK2
    case BRK2 => BRK3
    case BRK3 => BRK4
    case BRK4 => BRK5
    case BRK5 => BRK6(data)
    case BRK6(_) => FetchOpcode
    case RTI => RTI2
    case RTI2 => RTI3
    case RTI3 => RTI4
    case RTI4 => RTI5(data)
    case RTI5(_) => FetchOpcode
    case RTS => RTS2
    case RTS2 => RTS3
    case RTS3 => RTS4(data)
    case RTS4(_) => RTS5
    case RTS5 => FetchOpcode
    case PHP => PHPA(c.p | 0x10)
    case PHA => PHPA(c.a)
    case PHPA(_) => FetchOpcode
    case PLA => PLA2
    case PLA2 => PLA3
    case PLA3 => FetchOpcode
    case PLP => PLP2
    case PLP2 => PLP3
    case PLP3 => FetchOpcode
    case JSR => JSR2(data)
    case JSR2(low) => JSR3(low)
    case JSR3(low) => JSR4(low)
    case JSR4(low) => JSR5(low)
    case JSR5(_) => FetchOpcode
    case JMPAbsolute => JMPAbsolute2(data)
    case JMPAbsolute2(_) => FetchOpcode
    case JMPIndirect => JMPIndirect2(data)
    case JMPIndirect2(low) => JMPIndirect3(Word(data, low))
    case JMPIndirect3(pointer) => JMPIndirect4(pointer, data)
    case JMPIndirect4(_, _) => FetchOpcode
  }

  /** The CPU after a cycle other than an opcode fetch. */
  function After(c: Cpu, data: bv8): Cpu {
    NextRegs(c, data).(pc := NextPc(c, data), state := NextState(c, data))
  }

  /** The CPU after one cycle; `data` is the byte the bus returned if the
      cycle read. */
  function Step(c: Cpu, data: bv8): Next {
    if c.state == FetchOpcode then
      match Decode(data)
      case None => IllegalOpcode(data)
      case Some(s) => Continue(c.(pc := c.pc + 1, state := s))
    else Continue(After(c, data))
  }
}
