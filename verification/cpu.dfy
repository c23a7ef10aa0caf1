/** The cycle-accurate 6502 core of covnes (covnes/src/cpu.rs). Each call of
    `Cycle` is one CPU clock: the pipeline state fixes the single bus access
    of the cycle, and the value read (if any) decides the next state. */
module Cpu6502 {
  import opened Common
  import opened Alu

  /** An interrupt input line: `Clear` is `None`, `Pending` is `Some(false)`
      (signalled during this cycle, not yet visible), `Asserted` is
      `Some(true)` (visible to the next opcode fetch). */
  datatype Line = Clear | Pending | Asserted

  datatype Interrupt = Brk | Nmi | Irq | Rst

  /** The operation an addressing-mode sequence finally performs. */
  datatype Op = OpRead(r: ReadOp) | OpReadWrite(rw: ReadWriteOp) | OpWrite(w: WriteOp) | OpSh(sh: ShOp)

  /** The pipeline state: which cycle of which instruction comes next. */
  datatype S =
    | FetchOpcode
    | ZeroPage(op: Op)
    | ZeroPageX(op: Op)
    | ZeroPageY(op: Op)
    | AbsoluteX(op: Op)
    | AbsoluteY(op: Op)
    | Absolute(op: Op)
    | IndexedIndirect(op: Op)
    | IndexedIndirect2(op: Op, base: bv8)
    | IndexedIndirect3(op: Op, base: bv8)
    | IndirectIndexed(op: Op)
    | IndirectIndexed2(op: Op, base: bv8)
    | AddLowHigh(op: Op, addr: bv16, lowWord: bv16)
    | AddLowHighNoPen(op: Op, addr: bv16, low: bv8)
    | FakeThenActual(op: Op, fake: bv16, addr: bv16)
    | ExecuteOnAddress(op: Op, addr: bv16, origHigh: bv8)
    | WriteBackThenWrite(addr: bv16, original: bv8, modified: bv8)
    | WriteValue(addr: bv16, value: bv8)
    | ImmediateR(ro: ReadOp)
    | AccRW(rw: ReadWriteOp)
    | Relative(bo: BranchOp)
    | Relative2(offset: bv8)
    | Relative3(addr: bv16)
    | Implied(io: ImpliedOp)
    | Reset
    | Int(i: Interrupt)
    | Int2(i: Interrupt)
    | Int3(i: Interrupt)
    | Int4(i: Interrupt, bFlag: bool)
    | Int5(i: Interrupt)
    | Int6(i: Interrupt, low: bv8)
    | RTI | RTI2 | RTI3 | RTI4 | RTI5(low: bv8)
    | RTS | RTS2 | RTS3 | RTS4(low: bv8) | RTS5
    | PHA | PHP | PHPA(value: bv8)
    | PLA | PLA2 | PLA3
    | PLP | PLP2 | PLP3
    | JSR | JSR2(low: bv8) | JSR3(low: bv8) | JSR4(low: bv8) | JSR5(low: bv8)
    | JMPAbsolute | JMPAbsolute2(low: bv8)
    | JMPIndirect | JMPIndirect2(low: bv8) | JMPIndirect3(pointer: bv16) | JMPIndirect4(pointer: bv16, low: bv8)

  datatype Cpu = Cpu(pc: bv16, regs: Regs, state: S, nmi: Line, irq: Line)

  /** The one bus access a cycle performs. */
  datatype Access = NoAccess | ReadAt(addr: bv16) | WriteAt(addr: bv16, value: bv8)

  /** The CPU after a cycle, or the opcode that made it panic. */
  datatype Next = Continue(cpu: Cpu) | IllegalOpcode(opcode: bv8)

  datatype CycleResult = CycleResult(access: Access, next: Next)

  /** Power-on state: everything zero and the reset sequence pending. */
  function New(): Cpu {
    Cpu(0, Regs(0, 0, 0, 0, Flags(false, false, false, false, false, false)), Reset, Clear, Clear)
  }

  function ResetCpu(c: Cpu): Cpu {
    c.(state := Reset)
  }

  /** The PPU signals an NMI: it becomes visible after the current cycle. */
  function SetNmi(c: Cpu): Cpu {
    c.(nmi := Pending)
  }

  function JumpToPc(c: Cpu, addr: bv16): Cpu {
    c.(pc := addr, state := FetchOpcode)
  }

  predicate IsAtInstruction(c: Cpu) {
    c.state == FetchOpcode
  }

  /** The status byte (bits 4 and 5 clear). */
  function GetP(c: Cpu): bv8 {
    Pack(c.regs.f)
  }

  /** The status byte as pushed on the stack: bit 5 always set, bit 4 (B)
      set by BRK and PHP, clear for NMI and IRQ. */
  function StatusByte(f: Flags, b: bool): bv8 {
    Pack(f) | 0x20 | (if b then 0x10 else 0)
  }

  /** End-of-cycle promotion of a line signalled during the cycle. */
  function Promote(l: Line): Line {
    if l == Pending then Asserted else l
  }

  function Stack(s: bv8): bv16 {
    0x100 | (s as bv16)
  }

  function VectorLo(i: Interrupt): bv16 {
    match i
    case Brk => 0xFFFE
    case Nmi => 0xFFFA
    case Irq => 0xFFFE
    case Rst => 0xFFFC
  }

  function VectorHi(i: Interrupt): bv16 {
    match i
    case Brk => 0xFFFF
    case Nmi => 0xFFFB
    case Irq => 0xFFFF
    case Rst => 0xFFFD
  }

  /** Branch target: the offset is a signed byte added to the address of
      the next instruction. */
  function BranchTarget(pc: bv16, offset: bv8): bv16 {
    if offset < 0x80 then pc + (offset as bv16) else pc - (256 - (offset as bv16))
  }

  /** The address of the dummy read after a branch that crosses a page,
      as covnes computes it: the old page with the new low byte plus the
      offset once more. */
  function BranchFixupAddressAsWritten(oldPc: bv16, nextPc: bv16, offset: bv8): bv16 {
    (oldPc & 0xFF00) | ((Lo(nextPc) + offset) as bv16)
  }

  /** The address of the dummy read after a branch that crosses a page, as
      the 6502 performs it: the new low byte in the old page, before the
      high byte is fixed. */
  function BranchFixupAddress(oldPc: bv16, nextPc: bv16): bv16 {
    (oldPc & 0xFF00) | (Lo(nextPc) as bv16)
  }

  /** The byte pulled by PLP/RTI with B cleared and bit 5 set, as stored:
      `from_bits_truncate` then drops bits 4 and 5. */
  function PulledFlags(v: bv8): Flags {
    Unpack((v & !0x10) | 0x20)
  }

  /** Opcode decode: the first state of each legal (documented or
      supported undocumented) opcode; `None` for the opcodes that panic. */
  function Decode(opcode: bv8): Option<S> {
    match opcode as int
    case 0x69 => Some(ImmediateR(ADC))
    case 0x65 => Some(ZeroPage(OpRead(ADC)))
    case 0x75 => Some(ZeroPageX(OpRead(ADC)))
    case 0x6D => Some(Absolute(OpRead(ADC)))
    case 0x7D => Some(AbsoluteX(OpRead(ADC)))
    case 0x79 => Some(AbsoluteY(OpRead(ADC)))
    case 0x61 => Some(IndexedIndirect(OpRead(ADC)))
    case 0x71 => Some(IndirectIndexed(OpRead(ADC)))
    case 0x29 => Some(ImmediateR(AND))
    case 0x25 => Some(ZeroPage(OpRead(AND)))
    case 0x35 => Some(ZeroPageX(OpRead(AND)))
    case 0x2D => Some(Absolute(OpRead(AND)))
    case 0x3D => Some(AbsoluteX(OpRead(AND)))
    case 0x39 => Some(AbsoluteY(OpRead(AND)))
    case 0x21 => Some(IndexedIndirect(OpRead(AND)))
    case 0x31 => Some(IndirectIndexed(OpRead(AND)))
    case 0x0A => Some(AccRW(ASL))
    case 0x06 => Some(ZeroPage(OpReadWrite(ASL)))
    case 0x16 => Some(ZeroPageX(OpReadWrite(ASL)))
    case 0x0E => Some(Absolute(OpReadWrite(ASL)))
    case 0x1E => Some(AbsoluteX(OpReadWrite(ASL)))
    case 0x90 => Some(Relative(BCC))
    case 0xB0 => Some(Relative(BCS))
    case 0xF0 => Some(Relative(BEQ))
    case 0x24 => Some(ZeroPage(OpRead(BIT)))
    case 0x2C => Some(Absolute(OpRead(BIT)))
    case 0x30 => Some(Relative(BMI))
    case 0xD0 => Some(Relative(BNE))
    case 0x10 => Some(Relative(BPL))
    case 0x00 => Some(Int(Brk))
    case 0x50 => Some(Relative(BVC))
    case 0x70 => Some(Relative(BVS))
    case 0x18 => Some(Implied(CLC))
    case 0xD8 => Some(Implied(CLD))
    case 0x58 => Some(Implied(CLI))
    case 0xB8 => Some(Implied(CLV))
    case 0xC9 => Some(ImmediateR(CMP))
    case 0xC5 => Some(ZeroPage(OpRead(CMP)))
    case 0xD5 => Some(ZeroPageX(OpRead(CMP)))
    case 0xCD => Some(Absolute(OpRead(CMP)))
    case 0xDD => Some(AbsoluteX(OpRead(CMP)))
    case 0xD9 => Some(AbsoluteY(OpRead(CMP)))
    case 0xC1 => Some(IndexedIndirect(OpRead(CMP)))
    case 0xD1 => Some(IndirectIndexed(OpRead(CMP)))
    case 0xE0 => Some(ImmediateR(CPX))
    case 0xE4 => Some(ZeroPage(OpRead(CPX)))
    case 0xEC => Some(Absolute(OpRead(CPX)))
    case 0xC0 => Some(ImmediateR(CPY))
    case 0xC4 => Some(ZeroPage(OpRead(CPY)))
    case 0xCC => Some(Absolute(OpRead(CPY)))
    case 0xC6 => Some(ZeroPage(OpReadWrite(DEC)))
    case 0xD6 => Some(ZeroPageX(OpReadWrite(DEC)))
    case 0xCE => Some(Absolute(OpReadWrite(DEC)))
    case 0xDE => Some(AbsoluteX(OpReadWrite(DEC)))
    case 0xCA => Some(Implied(DEX))
    case 0x88 => Some(Implied(DEY))
    case 0x49 => Some(ImmediateR(EOR))
    case 0x45 => Some(ZeroPage(OpRead(EOR)))
    case 0x55 => Some(ZeroPageX(OpRead(EOR)))
    case 0x4D => Some(Absolute(OpRead(EOR)))
    case 0x5D => Some(AbsoluteX(OpRead(EOR)))
    case 0x59 => Some(AbsoluteY(OpRead(EOR)))
    case 0x41 => Some(IndexedIndirect(OpRead(EOR)))
    case 0x51 => Some(IndirectIndexed(OpRead(EOR)))
    case 0xE6 => Some(ZeroPage(OpReadWrite(INC)))
    case 0xF6 => Some(ZeroPageX(OpReadWrite(INC)))
    case 0xEE => Some(Absolute(OpReadWrite(INC)))
    case 0xFE => Some(AbsoluteX(OpReadWrite(INC)))
    case 0xE8 => Some(Implied(INX))
    case 0xC8 => Some(Implied(INY))
    case 0x4C => Some(JMPAbsolute)
    case 0x6C => Some(JMPIndirect)
    case 0x20 => Some(JSR)
    case 0xA9 => Some(ImmediateR(LDA))
    case 0xA5 => Some(ZeroPage(OpRead(LDA)))
    case 0xB5 => Some(ZeroPageX(OpRead(LDA)))
    case 0xAD => Some(Absolute(OpRead(LDA)))
    case 0xBD => Some(AbsoluteX(OpRead(LDA)))
    case 0xB9 => Some(AbsoluteY(OpRead(LDA)))
    case 0xA1 => Some(IndexedIndirect(OpRead(LDA)))
    case 0xB1 => Some(IndirectIndexed(OpRead(LDA)))
    case 0xA2 => Some(ImmediateR(LDX))
    case 0xA6 => Some(ZeroPage(OpRead(LDX)))
    case 0xB6 => Some(ZeroPageY(OpRead(LDX)))
    case 0xAE => Some(Absolute(OpRead(LDX)))
    case 0xBE => Some(AbsoluteY(OpRead(LDX)))
    case 0xA0 => Some(ImmediateR(LDY))
    case 0xA4 => Some(ZeroPage(OpRead(LDY)))
    case 0xB4 => Some(ZeroPageX(OpRead(LDY)))
    case 0xAC => Some(Absolute(OpRead(LDY)))
    case 0xBC => Some(AbsoluteX(OpRead(LDY)))
    case 0x4A => Some(AccRW(LSR))
    case 0x46 => Some(ZeroPage(OpReadWrite(LSR)))
    case 0x56 => Some(ZeroPageX(OpReadWrite(LSR)))
    case 0x4E => Some(Absolute(OpReadWrite(LSR)))
    case 0x5E => Some(AbsoluteX(OpReadWrite(LSR)))
    case 0xEA => Some(Implied(INop))
    case 0x09 => Some(ImmediateR(ORA))
    case 0x05 => Some(ZeroPage(OpRead(ORA)))
    case 0x15 => Some(ZeroPageX(OpRead(ORA)))
    case 0x0D => Some(Absolute(OpRead(ORA)))
    case 0x1D => Some(AbsoluteX(OpRead(ORA)))
    case 0x19 => Some(AbsoluteY(OpRead(ORA)))
    case 0x01 => Some(IndexedIndirect(OpRead(ORA)))
    case 0x11 => Some(IndirectIndexed(OpRead(ORA)))
    case 0x48 => Some(PHA)
    case 0x08 => Some(PHP)
    case 0x68 => Some(PLA)
    case 0x28 => Some(PLP)
    case 0x2A => Some(AccRW(ROL))
    case 0x26 => Some(ZeroPage(OpReadWrite(ROL)))
    case 0x36 => Some(ZeroPageX(OpReadWrite(ROL)))
    case 0x2E => Some(Absolute(OpReadWrite(ROL)))
    case 0x3E => Some(AbsoluteX(OpReadWrite(ROL)))
    case 0x6A => Some(AccRW(ROR))
    case 0x66 => Some(ZeroPage(OpReadWrite(ROR)))
    case 0x76 => Some(ZeroPageX(OpReadWrite(ROR)))
    case 0x6E => Some(Absolute(OpReadWrite(ROR)))
    case 0x7E => Some(AbsoluteX(OpReadWrite(ROR)))
    case 0x40 => Some(RTI)
    case 0x60 => Some(RTS)
    case 0xE9 => Some(ImmediateR(SBC))
    case 0xE5 => Some(ZeroPage(OpRead(SBC)))
    case 0xF5 => Some(ZeroPageX(OpRead(SBC)))
    case 0xED => Some(Absolute(OpRead(SBC)))
    case 0xFD => Some(AbsoluteX(OpRead(SBC)))
    case 0xF9 => Some(AbsoluteY(OpRead(SBC)))
    case 0xE1 => Some(IndexedIndirect(OpRead(SBC)))
    case 0xF1 => Some(IndirectIndexed(OpRead(SBC)))
    case 0x38 => Some(Implied(SEC))
    case 0xF8 => Some(Implied(SED))
    case 0x78 => Some(Implied(SEI))
    case 0x85 => Some(ZeroPage(OpWrite(STA)))
    case 0x95 => Some(ZeroPageX(OpWrite(STA)))
    case 0x8D => Some(Absolute(OpWrite(STA)))
    case 0x9D => Some(AbsoluteX(OpWrite(STA)))
    case 0x99 => Some(AbsoluteY(OpWrite(STA)))
    case 0x81 => Some(IndexedIndirect(OpWrite(STA)))
    case 0x91 => Some(IndirectIndexed(OpWrite(STA)))
    case 0x86 => Some(ZeroPage(OpWrite(STX)))
    case 0x96 => Some(ZeroPageY(OpWrite(STX)))
    case 0x8E => Some(Absolute(OpWrite(STX)))
    case 0x84 => Some(ZeroPage(OpWrite(STY)))
    case 0x94 => Some(ZeroPageX(OpWrite(STY)))
    case 0x8C => Some(Absolute(OpWrite(STY)))
    case 0xAA => Some(Implied(TAX))
    case 0xA8 => Some(Implied(TAY))
    case 0xBA => Some(Implied(TSX))
    case 0x8A => Some(Implied(TXA))
    case 0x9A => Some(Implied(TXS))
    case 0x98 => Some(Implied(TYA))
    case 0x04 | 0x44 | 0x64 => Some(ZeroPage(OpRead(NOP)))
    case 0x0C => Some(Absolute(OpRead(NOP)))
    case 0x14 | 0x34 | 0x54 | 0x74 | 0xD4 | 0xF4 => Some(ZeroPageX(OpRead(NOP)))
    case 0x1A | 0x3A | 0x5A | 0x7A | 0xDA | 0xFA => Some(Implied(INop))
    case 0x1C | 0x3C | 0x5C | 0x7C | 0xDC | 0xFC => Some(AbsoluteX(OpRead(NOP)))
    case 0x80 | 0x82 | 0x89 | 0xC2 | 0xE2 => Some(ImmediateR(NOP))
    case 0xA3 => Some(IndexedIndirect(OpRead(LAX)))
    case 0xA7 => Some(ZeroPage(OpRead(LAX)))
    case 0xAB => Some(ImmediateR(LAX))
    case 0xAF => Some(Absolute(OpRead(LAX)))
    case 0xB3 => Some(IndirectIndexed(OpRead(LAX)))
    case 0xB7 => Some(ZeroPageY(OpRead(LAX)))
    case 0xBF => Some(AbsoluteY(OpRead(LAX)))
    case 0x83 => Some(IndexedIndirect(OpWrite(SAX)))
    case 0x87 => Some(ZeroPage(OpWrite(SAX)))
    case 0x8F => Some(Absolute(OpWrite(SAX)))
    case 0x97 => Some(ZeroPageY(OpWrite(SAX)))
    case 0xEB => Some(ImmediateR(SBC))
    case 0xC3 => Some(IndexedIndirect(OpReadWrite(DCP)))
    case 0xC7 => Some(ZeroPage(OpReadWrite(DCP)))
    case 0xCF => Some(Absolute(OpReadWrite(DCP)))
    case 0xD3 => Some(IndirectIndexed(OpReadWrite(DCP)))
    case 0xD7 => Some(ZeroPageX(OpReadWrite(DCP)))
    case 0xDB => Some(AbsoluteY(OpReadWrite(DCP)))
    case 0xDF => Some(AbsoluteX(OpReadWrite(DCP)))
    case 0xE3 => Some(IndexedIndirect(OpReadWrite(ISC)))
    case 0xE7 => Some(ZeroPage(OpReadWrite(ISC)))
    case 0xEF => Some(Absolute(OpReadWrite(ISC)))
    case 0xF3 => Some(IndirectIndexed(OpReadWrite(ISC)))
    case 0xF7 => Some(ZeroPageX(OpReadWrite(ISC)))
    case 0xFB => Some(AbsoluteY(OpReadWrite(ISC)))
    case 0xFF => Some(AbsoluteX(OpReadWrite(ISC)))
    case 0x03 => Some(IndexedIndirect(OpReadWrite(SLO)))
    case 0x07 => Some(ZeroPage(OpReadWrite(SLO)))
    case 0x0F => Some(Absolute(OpReadWrite(SLO)))
    case 0x13 => Some(IndirectIndexed(OpReadWrite(SLO)))
    case 0x17 => Some(ZeroPageX(OpReadWrite(SLO)))
    case 0x1B => Some(AbsoluteY(OpReadWrite(SLO)))
    case 0x1F => Some(AbsoluteX(OpReadWrite(SLO)))
    case 0x23 => Some(IndexedIndirect(OpReadWrite(RLA)))
    case 0x27 => Some(ZeroPage(OpReadWrite(RLA)))
    case 0x2F => Some(Absolute(OpReadWrite(RLA)))
    case 0x33 => Some(IndirectIndexed(OpReadWrite(RLA)))
    case 0x37 => Some(ZeroPageX(OpReadWrite(RLA)))
    case 0x3B => Some(AbsoluteY(OpReadWrite(RLA)))
    case 0x3F => Some(AbsoluteX(OpReadWrite(RLA)))
    case 0x43 => Some(IndexedIndirect(OpReadWrite(SRE)))
    case 0x47 => Some(ZeroPage(OpReadWrite(SRE)))
    case 0x4F => Some(Absolute(OpReadWrite(SRE)))
    case 0x53 => Some(IndirectIndexed(OpReadWrite(SRE)))
    case 0x57 => Some(ZeroPageX(OpReadWrite(SRE)))
    case 0x5B => Some(AbsoluteY(OpReadWrite(SRE)))
    case 0x5F => Some(AbsoluteX(OpReadWrite(SRE)))
    case 0x63 => Some(IndexedIndirect(OpReadWrite(RRA)))
    case 0x67 => Some(ZeroPage(OpReadWrite(RRA)))
    case 0x6F => Some(Absolute(OpReadWrite(RRA)))
    case 0x73 => Some(IndirectIndexed(OpReadWrite(RRA)))
    case 0x77 => Some(ZeroPageX(OpReadWrite(RRA)))
    case 0x7B => Some(AbsoluteY(OpReadWrite(RRA)))
    case 0x7F => Some(AbsoluteX(OpReadWrite(RRA)))
    case 0x0B => Some(ImmediateR(ANC))
    case 0x2B => Some(ImmediateR(ANC))
    case 0x4B => Some(ImmediateR(ALR))
    case 0x6B => Some(ImmediateR(ARR))
    case 0xCB => Some(ImmediateR(AXS))
    case 0x9C => Some(AbsoluteX(OpSh(SHY)))
    case 0x9E => Some(AbsoluteY(OpSh(SHX)))
    case _ => None
  }

  /** The interrupt that replaces the next opcode fetch, if any: an
      asserted NMI, else an asserted IRQ that the I flag does not mask. */
  function Interrupting(c: Cpu): Option<Interrupt> {
    if c.nmi == Asserted then Some(Nmi)
    else if c.irq == Asserted && !c.regs.f.i then Some(Irq)
    else None
  }

  /** The one bus access of the cycle the CPU is about to perform; it is
      fixed by the state before any data arrives. */
  function Request(c: Cpu): Access {
    var r := c.regs;
    var pc := c.pc;
    match c.state
    case FetchOpcode => if Interrupting(c).Some? then NoAccess else ReadAt(pc)
    case ImmediateR(_) | ZeroPage(_) | ZeroPageX(_) | ZeroPageY(_) | Absolute(_) | AbsoluteX(_)
       | AbsoluteY(_) | IndexedIndirect(_) | IndirectIndexed(_) | AccRW(_) | Relative(_) | Reset
       | RTS5 | JSR | JSR5(_) | JMPAbsolute | JMPAbsolute2(_) | JMPIndirect | JMPIndirect2(_) =>
      ReadAt(pc)
    case FakeThenActual(_, fake, _) => ReadAt(fake)
    case ExecuteOnAddress(op, addr, origHigh) =>
      (match op
       case OpRead(_) => ReadAt(addr)
       case OpReadWrite(_) => ReadAt(addr)
       case OpWrite(w) => WriteAt(addr, ExecWrite(w, r))
       case OpSh(sh) => WriteAt(addr, ExecSh(sh, r, origHigh)))
    case WriteBackThenWrite(addr, original, _) => WriteAt(addr, original)
    case WriteValue(addr, value) => WriteAt(addr, value)
    case AddLowHighNoPen(_, addr, _) => ReadAt(addr)
    case AddLowHigh(_, addr, _) => ReadAt(addr)
    case IndexedIndirect2(_, base) => ReadAt(base as bv16)
    case IndexedIndirect3(_, base) => ReadAt((base + r.x) as bv16)
    case IndirectIndexed2(_, base) => ReadAt(base as bv16)
    case Relative2(_) | Implied(_) | RTI | RTS | PHA | PHP | PLA | PLP => NoAccess
    case Relative3(addr) => ReadAt(addr)
    case Int(i) => ReadAt(if i == Brk then pc + 1 else pc)
    case Int2(i) => if i == Rst then ReadAt(Stack(r.s)) else WriteAt(Stack(r.s), Hi(pc))
    case Int3(i) => if i == Rst then ReadAt(Stack(r.s)) else WriteAt(Stack(r.s), Lo(pc))
    case Int4(i, bFlag) =>
      if i == Rst then ReadAt(Stack(r.s))
      else WriteAt(Stack(r.s), StatusByte(r.f, bFlag))
    case Int5(i) => ReadAt(VectorLo(i))
    case Int6(i, _) => ReadAt(VectorHi(i))
    case RTI2 | RTI3 | RTI4 | RTI5(_) | RTS2 | RTS3 | RTS4(_) | PLA2 | PLP2 | JSR2(_) => ReadAt(Stack(r.s))
    case PLA3 | PLP3 => ReadAt(Stack(r.s + 1))
    case PHPA(value) => WriteAt(Stack(r.s), value)
    case JSR3(_) => WriteAt(Stack(r.s), Hi(pc))
    case JSR4(_) => WriteAt(Stack(r.s), Lo(pc))
    case JMPIndirect3(pointer) => ReadAt(pointer)
    case JMPIndirect4(pointer, _) => ReadAt(Word(Hi(pointer), Lo(pointer) + 1))
  }

  /** The program counter after a cycle other than an opcode fetch. */
  function NextPc(c: Cpu, data: bv8): bv16 {
    var pc := c.pc;
    match c.state
    case ImmediateR(_) | ZeroPage(_) | ZeroPageX(_) | ZeroPageY(_) | IndexedIndirect(_)
       | IndirectIndexed(_) | Relative(_) | RTS5 | JSR | JMPAbsolute | JMPIndirect => pc + 1
    case Absolute(_) | AbsoluteX(_) | AbsoluteY(_) => pc + 2
    case Relative2(offset) => BranchTarget(pc, offset)
    case Int(i) => if i == Brk then pc + 1 else pc
    case Int6(_, low) => Word(data, low)
    case RTI5(low) => Word(data, low)
    case RTS4(low) => Word(data, low)
    case JSR5(low) => Word(data, low)
    case JMPAbsolute2(low) => Word(data, low)
    case JMPIndirect4(_, low) => Word(data, low)
    case _ => pc
  }

  /** The registers after a cycle other than an opcode fetch. */
  function NextRegs(c: Cpu, data: bv8): Regs {
    var r := c.regs;
    match c.state
    case ImmediateR(ro) => ExecRead(ro, r, data)
    case ExecuteOnAddress(op, _, _) =>
      (match op
       case OpRead(ro) => ExecRead(ro, r, data)
       case OpReadWrite(rw) => ExecRmw(rw, r, data).regs
       case _ => r)
    case AccRW(rw) =>
      var w := ExecRmw(rw, r, r.a);
      w.regs.(a := w.value)
    case Implied(io) => ExecImplied(io, r)
    case Int2(_) | Int3(_) | Int4(_, _) | PHPA(_) | JSR3(_) | JSR4(_) => r.(s := r.s - 1)
    case Int5(_) => r.(f := r.f.(i := true))
    case RTI2 | RTI4 | RTS2 | RTS3 => r.(s := r.s + 1)
    case RTI3 | PLP3 => r.(s := r.s + 1, f := PulledFlags(data))
    case PLA3 => SetZN(r.(s := r.s + 1), data).(a := data)
    case _ => r
  }

  /** The pipeline state after a cycle other than an opcode fetch.
      `nmiAfter` matters only at the point where an interrupt sequence may
      be hijacked. */
  function NextState(c: Cpu, data: bv8, nmiAfter: Line): S {
    var r := c.regs;
    var pc := c.pc;
    match c.state
    case FetchOpcode => FetchOpcode
    case ImmediateR(_) | AccRW(_) | Implied(_) | Relative3(_) | Int6(_, _) | RTI5(_) | RTS5 | PHPA(_)
       | PLA3 | PLP3 | JSR5(_) | JMPAbsolute2(_) | JMPIndirect4(_, _) | WriteValue(_, _) => FetchOpcode
    case ZeroPage(op) => ExecuteOnAddress(op, data as bv16, 0)
    case ZeroPageX(op) => FakeThenActual(op, data as bv16, (data + r.x) as bv16)
    case ZeroPageY(op) => FakeThenActual(op, data as bv16, (data + r.y) as bv16)
    case FakeThenActual(op, fake, addr) => ExecuteOnAddress(op, addr, Hi(fake))
    case ExecuteOnAddress(op, addr, _) =>
      if op.OpReadWrite? then WriteBackThenWrite(addr, data, ExecRmw(op.rw, r, data).value)
      else FetchOpcode
    case WriteBackThenWrite(addr, _, modified) => WriteValue(addr, modified)
    case Absolute(op) => AddLowHighNoPen(op, pc + 1, data)
    case AbsoluteX(op) => AddLowHigh(op, pc + 1, (data as bv16) + (r.x as bv16))
    case AbsoluteY(op) => AddLowHigh(op, pc + 1, (data as bv16) + (r.y as bv16))
    case AddLowHighNoPen(op, _, low) => ExecuteOnAddress(op, Word(data, low), data)
    case AddLowHigh(op, _, lowWord) =>
      var target := Word(data, Lo(lowWord));
      if op.OpSh? then
        var actual := if lowWord > 0xFF then Word(ExecSh(op.sh, r, data), Lo(lowWord)) else target;
        FakeThenActual(op, target, actual)
      else if lowWord > 0xFF then FakeThenActual(op, target, target + 0x100)
      else if op.OpRead? then ExecuteOnAddress(op, target, data)
      else FakeThenActual(op, target, target)
    case IndexedIndirect(op) => IndexedIndirect2(op, data)
    case IndexedIndirect2(op, base) => IndexedIndirect3(op, base)
    case IndexedIndirect3(op, base) => AddLowHighNoPen(op, (base + r.x + 1) as bv16, data)
    case IndirectIndexed(op) => IndirectIndexed2(op, data)
    case IndirectIndexed2(op, base) => AddLowHigh(op, (base + 1) as bv16, (data as bv16) + (r.y as bv16))
    case Relative(bo) => if Taken(bo, r) then Relative2(data) else FetchOpcode
    case Relative2(offset) =>
      var next := BranchTarget(pc, offset);
      if Hi(pc) != Hi(next) then Relative3(BranchFixupAddress(pc, next)) else FetchOpcode
    case Reset => Int(Rst)
    case Int(i) => Int2(i)
    case Int2(i) => Int3(i)
    case Int3(i) =>
      if i == Brk && nmiAfter != Clear then Int4(Nmi, true)
      else if i == Brk && c.irq != Clear then Int4(Irq, true)
      else if i == Brk then Int4(Brk, true)
      else if i == Irq && nmiAfter != Clear then Int4(Nmi, false)
      else Int4(i, false)
    case Int4(i, _) => Int5(i)
    case Int5(i) => Int6(i, data)
    case RTI => RTI2
    case RTI2 => RTI3
    case RTI3 => RTI4
    case RTI4 => RTI5(data)
    case RTS => RTS2
    case RTS2 => RTS3
    case RTS3 => RTS4(data)
    case RTS4(_) => RTS5
    case PHP => PHPA(StatusByte(r.f, true))
    case PHA => PHPA(r.a)
    case PLA => PLA2
    case PLA2 => PLA3
    case PLP => PLP2
    case PLP2 => PLP3
    case JSR => JSR2(data)
    case JSR2(low) => JSR3(low)
    case JSR3(low) => JSR4(low)
    case JSR4(low) => JSR5(low)
    case JMPAbsolute => JMPAbsolute2(data)
    case JMPIndirect => JMPIndirect2(data)
    case JMPIndirect2(low) => JMPIndirect3(Word(data, low))
    case JMPIndirect3(pointer) => JMPIndirect4(pointer, data)
  }

  /** The CPU after one cycle. `data` is the byte the bus returned if the
      cycle read; `nmiAfter` is the NMI line as it stands after the access
      (whatever the bus did to it while serving the access). Lines signalled
      during the cycle become visible at its end. */
  function Step(c: Cpu, data: bv8, nmiAfter: Line): Next {
    if c.state == FetchOpcode then
      var irq := if c.irq != Clear && c.regs.f.i then Clear else c.irq;
      match Interrupting(c)
      case Some(i) => Continue(c.(state := Int(i), nmi := Clear, irq := Promote(irq)))
      case None =>
        (match Decode(data)
         case None => IllegalOpcode(data)
         case Some(s) => Continue(c.(pc := c.pc + 1, state := s, nmi := Promote(nmiAfter), irq := Promote(irq))))
    else
      Continue(Cpu(NextPc(c, data), NextRegs(c, data), NextState(c, data, nmiAfter), Promote(nmiAfter), Promote(c.irq)))
  }

  /** One CPU cycle: its bus access and what follows it. */
  function Cycle(c: Cpu, data: bv8, nmiAfter: Line): CycleResult {
    CycleResult(Request(c), Step(c, data, nmiAfter))
  }
}
