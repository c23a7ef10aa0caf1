/** One cycle of each pipeline state of the covnes CPU (covnes/src/cpu.rs):
    the bus access the state performs and the CPU it leads to. Address
    arithmetic is restated in integers, so that the page wrap-arounds of the
    6502 are visible as explicit remainders. */
module CpuCycles {
  import opened Common
  import opened Alu
  import opened Cpu6502
  import opened CpuTrace

  // The opcode fetch and interrupt polling.

  /** An asserted NMI replaces the opcode fetch: the cycle makes no access,
      starts the NMI sequence and clears the NMI line. */
  lemma FetchNmi(c: Cpu, d: bv8, n: Line)
    requires c.state == FetchOpcode && c.nmi == Asserted
    ensures Request(c) == NoAccess
    ensures Step(c, d, n).Continue?
    ensures var c' := Step(c, d, n).cpu;
            c'.state == Int(Nmi) && c'.nmi == Clear && c'.pc == c.pc && c'.regs == c.regs
  {
  }

  /** Otherwise an asserted IRQ that I does not mask replaces it, and the
      NMI line is cleared as well, dropping an NMI signalled but not yet
      visible. */
  lemma FetchIrq(c: Cpu, d: bv8, n: Line)
    requires c.state == FetchOpcode && c.nmi != Asserted && c.irq == Asserted && !c.regs.f.i
    ensures Request(c) == NoAccess
    ensures Step(c, d, n) == Continue(c.(state := Int(Irq), nmi := Clear))
  {
  }

  /** An IRQ line raised while I is set is dropped at the fetch, whatever
      its stage. */
  lemma FetchDropsMaskedIrq(c: Cpu, d: bv8, n: Line)
    requires c.state == FetchOpcode && c.nmi != Asserted && c.regs.f.i
    ensures Request(c) == ReadAt(c.pc)
    ensures Step(c, d, n).Continue? ==> Step(c, d, n).cpu.irq == Clear
  {
  }

  /** Without an interrupt the fetch reads the opcode at PC, steps PC past
      it and enters the opcode's first state; an opcode with no state
      stops the CPU. */
  lemma FetchDecodes(c: Cpu, d: bv8, n: Line)
    requires c.state == FetchOpcode && Interrupting(c).None?
    ensures Request(c) == ReadAt(c.pc)
    ensures Step(c, d, n).IllegalOpcode? <==> Decode(d).None?
    ensures Decode(d).Some? ==>
              var c' := Step(c, d, n).cpu;
              c'.pc == c.pc + 1 && c'.state == Decode(d).value && c'.regs == c.regs && c'.nmi == Promote(n)
  {
  }

  /** The operand fetch of zero page,X: the un-indexed address is read
      first, then the operand at the low byte of base + X. */
  lemma ZeroPageXCycle(c: Cpu, d: bv8, op: Op)
    requires c.state == ZeroPageX(op)
    ensures Request(c) == ReadAt(c.pc)
    ensures After(c, d)
            == Settle(c.(pc := c.pc + 1, state := FakeThenActual(op, d as bv16, ((d as bv16) + (c.regs.x as bv16)) & 0xFF)))
  {
    ZeroPageXState(c, d, op);
    OperandKeepsRegs(c, d);
  }

  lemma ZeroPageXState(c: Cpu, d: bv8, op: Op)
    requires c.state == ZeroPageX(op)
    ensures NextState(c, d, c.nmi) == FakeThenActual(op, d as bv16, (d + c.regs.x) as bv16)
    ensures (d + c.regs.x) as bv16 == ((d as bv16) + (c.regs.x as bv16)) & 0xFF
  {
  }

  /** The same for zero page,Y. */
  lemma ZeroPageYCycle(c: Cpu, d: bv8, op: Op)
    requires c.state == ZeroPageY(op)
    ensures Request(c) == ReadAt(c.pc)
    ensures After(c, d)
            == Settle(c.(pc := c.pc + 1, state := FakeThenActual(op, d as bv16, ((d as bv16) + (c.regs.y as bv16)) & 0xFF)))
  {
    ZeroPageYState(c, d, op);
    OperandKeepsRegs(c, d);
  }

  lemma ZeroPageYState(c: Cpu, d: bv8, op: Op)
    requires c.state == ZeroPageY(op)
    ensures NextState(c, d, c.nmi) == FakeThenActual(op, d as bv16, (d + c.regs.y) as bv16)
    ensures (d + c.regs.y) as bv16 == ((d as bv16) + (c.regs.y as bv16)) & 0xFF
  {
  }

  /** Operand fetches advance the program counter past the operand bytes
      and leave the registers alone. */
  lemma OperandKeepsRegs(c: Cpu, d: bv8)
    requires c.state.ZeroPage? || c.state.ZeroPageX? || c.state.ZeroPageY? || c.state.Absolute?
             || c.state.AbsoluteX? || c.state.AbsoluteY? || c.state.IndexedIndirect? || c.state.IndirectIndexed?
    ensures NextPc(c, d) == c.pc + (if c.state.Absolute? || c.state.AbsoluteX? || c.state.AbsoluteY? then 2 else 1)
    ensures NextRegs(c, d) == c.regs
  {
  }

  /** The cycles of the effective-address stage move neither the program
      counter nor the registers. */
  lemma AddressingKeepsPcAndRegs(c: Cpu, d: bv8)
    requires c.state.AddLowHigh? || c.state.AddLowHighNoPen? || c.state.FakeThenActual?
             || c.state.IndexedIndirect2? || c.state.IndexedIndirect3? || c.state.IndirectIndexed2?
    ensures NextPc(c, d) == c.pc && NextRegs(c, d) == c.regs
  {
  }

  /** The low operand byte of abs,X is added to X in 16 bits, so that the
      carry into the high byte is kept. */
  lemma AbsoluteXCycle(c: Cpu, d: bv8, op: Op)
    requires c.state == AbsoluteX(op)
    ensures Request(c) == ReadAt(c.pc)
    ensures After(c, d) == Settle(c.(pc := c.pc + 2, state := AddLowHigh(op, c.pc + 1, (d as bv16) + (c.regs.x as bv16))))
  {
    AbsoluteXState(c, d, op);
    OperandKeepsRegs(c, d);
  }

  lemma AbsoluteXState(c: Cpu, d: bv8, op: Op)
    requires c.state == AbsoluteX(op)
    ensures NextState(c, d, c.nmi) == AddLowHigh(op, c.pc + 1, (d as bv16) + (c.regs.x as bv16))
  {
    match c.state {
      case AbsoluteX(_) =>
    }
  }

  lemma AbsoluteYCycle(c: Cpu, d: bv8, op: Op)
    requires c.state == AbsoluteY(op)
    ensures Request(c) == ReadAt(c.pc)
    ensures After(c, d) == Settle(c.(pc := c.pc + 2, state := AddLowHigh(op, c.pc + 1, (d as bv16) + (c.regs.y as bv16))))
  {
    AbsoluteYState(c, d, op);
    OperandKeepsRegs(c, d);
  }

  lemma AbsoluteYState(c: Cpu, d: bv8, op: Op)
    requires c.state == AbsoluteY(op)
    ensures NextState(c, d, c.nmi) == AddLowHigh(op, c.pc + 1, (d as bv16) + (c.regs.y as bv16))
  {
    match c.state {
      case AbsoluteY(_) =>
    }
  }

  /** The high byte of a read with a carried index: the next cycle reads
      at the un-carried address, then at the address one page up. */
  lemma AddLowHighReadCarry(c: Cpu, d: bv8, ro: ReadOp, addr: bv16, lowWord: bv16)
    requires c.state == AddLowHigh(OpRead(ro), addr, lowWord) && lowWord > 0xFF
    ensures Request(c) == ReadAt(addr)
    ensures NextState(c, d, c.nmi) == FakeThenActual(OpRead(ro), Word(d, Lo(lowWord)), Word(d, Lo(lowWord)) + 0x100)
  {
  }

  /** Without a carry a read goes straight to its operand. */
  lemma AddLowHighReadNoCarry(c: Cpu, d: bv8, ro: ReadOp, addr: bv16, lowWord: bv16)
    requires c.state == AddLowHigh(OpRead(ro), addr, lowWord) && lowWord <= 0xFF
    ensures Request(c) == ReadAt(addr)
    ensures NextState(c, d, c.nmi) == ExecuteOnAddress(OpRead(ro), Word(d, Lo(lowWord)), d)
  {
  }

  /** A write always takes the dummy read at the un-carried address, then
      writes at the carried one. */
  lemma AddLowHighWriteCarry(c: Cpu, d: bv8, w: WriteOp, addr: bv16, lowWord: bv16)
    requires c.state == AddLowHigh(OpWrite(w), addr, lowWord) && lowWord > 0xFF
    ensures Request(c) == ReadAt(addr)
    ensures NextState(c, d, c.nmi) == FakeThenActual(OpWrite(w), Word(d, Lo(lowWord)), Word(d, Lo(lowWord)) + 0x100)
  {
  }

  lemma AddLowHighWriteNoCarry(c: Cpu, d: bv8, w: WriteOp, addr: bv16, lowWord: bv16)
    requires c.state == AddLowHigh(OpWrite(w), addr, lowWord) && lowWord <= 0xFF
    ensures Request(c) == ReadAt(addr)
    ensures NextState(c, d, c.nmi) == FakeThenActual(OpWrite(w), Word(d, Lo(lowWord)), Word(d, Lo(lowWord)))
  {
  }

  /** So does a read-modify-write. */
  lemma AddLowHighReadWriteCarry(c: Cpu, d: bv8, rw: ReadWriteOp, addr: bv16, lowWord: bv16)
    requires c.state == AddLowHigh(OpReadWrite(rw), addr, lowWord) && lowWord > 0xFF
    ensures Request(c) == ReadAt(addr)
    ensures NextState(c, d, c.nmi) == FakeThenActual(OpReadWrite(rw), Word(d, Lo(lowWord)), Word(d, Lo(lowWord)) + 0x100)
  {
  }

  lemma AddLowHighReadWriteNoCarry(c: Cpu, d: bv8, rw: ReadWriteOp, addr: bv16, lowWord: bv16)
    requires c.state == AddLowHigh(OpReadWrite(rw), addr, lowWord) && lowWord <= 0xFF
    ensures Request(c) == ReadAt(addr)
    ensures NextState(c, d, c.nmi) == FakeThenActual(OpReadWrite(rw), Word(d, Lo(lowWord)), Word(d, Lo(lowWord)))
  {
  }

  lemma FakeThenActualCycle(c: Cpu, d: bv8, op: Op, fake: bv16, addr: bv16)
    requires c.state == FakeThenActual(op, fake, addr)
    ensures Request(c) == ReadAt(fake)
    ensures NextState(c, d, c.nmi) == ExecuteOnAddress(op, addr, Hi(fake))
  {
  }

  lemma ExecuteReadCycle(c: Cpu, d: bv8, ro: ReadOp, addr: bv16, h: bv8)
    requires c.state == ExecuteOnAddress(OpRead(ro), addr, h)
    ensures Request(c) == ReadAt(addr)
    ensures After(c, d) == Settle(c.(regs := ExecRead(ro, c.regs, d), state := FetchOpcode))
  {
  }

  lemma ExecuteWriteCycle(c: Cpu, d: bv8, w: WriteOp, addr: bv16, h: bv8)
    requires c.state == ExecuteOnAddress(OpWrite(w), addr, h)
    ensures Request(c) == WriteAt(addr, ExecWrite(w, c.regs))
    ensures After(c, d) == Settle(c.(state := FetchOpcode))
  {
  }

  /** The read of a read-modify-write computes the new value and the new
      flags at once. */
  lemma ExecuteReadWriteCycle(c: Cpu, d: bv8, rw: ReadWriteOp, addr: bv16, h: bv8)
    requires c.state == ExecuteOnAddress(OpReadWrite(rw), addr, h)
    ensures Request(c) == ReadAt(addr)
    ensures After(c, d)
            == Settle(c.(regs := ExecRmw(rw, c.regs, d).regs, state := WriteBackThenWrite(addr, d, ExecRmw(rw, c.regs, d).value)))
  {
  }

  lemma WriteBackCycle(c: Cpu, d: bv8, addr: bv16, original: bv8, modified: bv8)
    requires c.state == WriteBackThenWrite(addr, original, modified)
    ensures Request(c) == WriteAt(addr, original)
    ensures After(c, d) == Settle(c.(state := WriteValue(addr, modified)))
  {
  }

  lemma WriteValueCycle(c: Cpu, d: bv8, addr: bv16, v: bv8)
    requires c.state == WriteValue(addr, v)
    ensures Request(c) == WriteAt(addr, v)
    ensures After(c, d) == Settle(c.(state := FetchOpcode))
  {
  }

  /** (zp,X): the pointer bytes are read at the low bytes of base + X and
      base + X + 1; the pointer never leaves the zero page. */
  lemma IndexedIndirect3Cycle(c: Cpu, d: bv8, op: Op, base: bv8)
    requires c.state == IndexedIndirect3(op, base)
    ensures Request(c) == ReadAt(((base as bv16) + (c.regs.x as bv16)) & 0xFF)
    ensures NextState(c, d, c.nmi) == AddLowHighNoPen(op, ((base as bv16) + (c.regs.x as bv16) + 1) & 0xFF, d)
  {
  }

  /** (zp),Y: the high pointer byte is read at the low byte of base + 1,
      and the low byte is added to Y in 16 bits. */
  lemma IndirectIndexed2Cycle(c: Cpu, d: bv8, op: Op, base: bv8)
    requires c.state == IndirectIndexed2(op, base)
    ensures Request(c) == ReadAt(base as bv16)
    ensures NextState(c, d, c.nmi) == AddLowHigh(op, ((base as bv16) + 1) & 0xFF, (d as bv16) + (c.regs.y as bv16))
  {
  }

  /** JMP (ind) takes the high byte of the target from the byte after the
      pointer within the pointer's page: JMP ($xxFF) reads $xx00. */
  lemma JmpIndirectHighByte(c: Cpu, d: bv8, pointer: bv16, low: bv8)
    requires c.state == JMPIndirect4(pointer, low)
    ensures Request(c) == ReadAt((pointer & 0xFF00) | ((pointer + 1) & 0xFF))
    ensures Lo(pointer) == 0xFF ==> Request(c) == ReadAt(pointer & 0xFF00)
    ensures After(c, d) == Settle(c.(pc := Word(d, low), state := FetchOpcode))
  {
  }

  // Branches.

  /** A branch offset as a signed byte widened to 16 bits. */
  function SignExtend(offset: bv8): bv16 {
    if offset < 0x80 then offset as bv16 else (offset as bv16) | 0xFF00
  }

  /** The branch target is the program counter plus the sign-extended
      offset, wrapping at 64K. */
  lemma BranchTargetAddsSigned(pc: bv16, offset: bv8)
    ensures BranchTarget(pc, offset) == pc + SignExtend(offset)
  {
  }

  /** The dummy read of a taken branch that crosses a page goes to the
      target's low byte in the old page, which is the old low byte plus the
      offset. */
  lemma BranchFixupStaysInPage(pc: bv16, offset: bv8)
    ensures Hi(BranchFixupAddress(pc, BranchTarget(pc, offset))) == Hi(pc)
    ensures Lo(BranchFixupAddress(pc, BranchTarget(pc, offset))) == Lo(BranchTarget(pc, offset)) == Lo(pc) + offset
  {
    var t := BranchTarget(pc, offset);
    assert Hi(BranchFixupAddress(pc, t)) == Hi(pc) && Lo(BranchFixupAddress(pc, t)) == Lo(t);
    BranchTargetLow(pc, offset);
  }

  /** The low byte of the target is the old low byte plus the offset. */
  lemma BranchTargetLow(pc: bv16, offset: bv8)
    ensures Lo(BranchTarget(pc, offset)) == Lo(pc) + offset
  {
    BranchTargetAddsSigned(pc, offset);
    LoAdd(pc, SignExtend(offset));
    LoSignExtend(offset);
  }

  /** The low byte of a sum depends only on the low bytes. */
  lemma LoAdd(a: bv16, b: bv16)
    ensures Lo(a + b) == Lo(a) + Lo(b)
  {
  }

  lemma LoSignExtend(offset: bv8)
    ensures Lo(SignExtend(offset)) == offset
  {
  }

  /** covnes adds the offset a second time: a branch from $10F0 by +$20
      lands at $1110, and its dummy read should be at $1010 but is at
      $1030. */
  lemma BranchFixupAsWrittenMisses()
    ensures BranchTarget(0x10F0, 0x20) == 0x1110
    ensures BranchFixupAddress(0x10F0, 0x1110) == 0x1010
    ensures BranchFixupAddressAsWritten(0x10F0, 0x1110, 0x20) == 0x1030
  {
  }

  lemma BranchTakenCycle(c: Cpu, d: bv8, bo: BranchOp)
    requires c.state == Relative(bo) && Taken(bo, c.regs)
    ensures Request(c) == ReadAt(c.pc)
    ensures After(c, d) == Settle(c.(pc := c.pc + 1, state := Relative2(d)))
  {
  }

  lemma BranchNotTakenCycle(c: Cpu, d: bv8, bo: BranchOp)
    requires c.state == Relative(bo) && !Taken(bo, c.regs)
    ensures Request(c) == ReadAt(c.pc)
    ensures After(c, d) == Settle(c.(pc := c.pc + 1, state := FetchOpcode))
  {
  }

  lemma BranchSamePageCycle(c: Cpu, d: bv8, offset: bv8)
    requires c.state == Relative2(offset) && Hi(c.pc) == Hi(BranchTarget(c.pc, offset))
    ensures Request(c) == NoAccess
    ensures After(c, d) == Settle(c.(pc := BranchTarget(c.pc, offset), state := FetchOpcode))
  {
  }

  lemma BranchCrossPageCycle(c: Cpu, d: bv8, offset: bv8)
    requires c.state == Relative2(offset) && Hi(c.pc) != Hi(BranchTarget(c.pc, offset))
    ensures Request(c) == NoAccess
    ensures After(c, d)
            == Settle(c.(pc := BranchTarget(c.pc, offset), state := Relative3(BranchFixupAddress(c.pc, BranchTarget(c.pc, offset)))))
  {
  }

  lemma BranchFixupCycle(c: Cpu, d: bv8, addr: bv16)
    requires c.state == Relative3(addr)
    ensures Request(c) == ReadAt(addr)
    ensures After(c, d) == Settle(c.(state := FetchOpcode))
  {
  }

  // Reset and interrupts.

  lemma ResetCycle(c: Cpu, d: bv8)
    requires c.state == Reset
    ensures Request(c) == ReadAt(c.pc)
    ensures After(c, d) == Settle(c.(state := Int(Rst)))
  {
  }

  /** BRK skips its padding byte. */
  lemma IntBrkCycle(c: Cpu, d: bv8)
    requires c.state == Int(Brk)
    ensures Request(c) == ReadAt(c.pc + 1)
    ensures After(c, d) == Settle(c.(pc := c.pc + 1, state := Int2(Brk)))
  {
  }

  lemma IntCycle(c: Cpu, d: bv8, i: Interrupt)
    requires c.state == Int(i) && i != Brk
    ensures Request(c) == ReadAt(c.pc)
    ensures After(c, d) == Settle(c.(state := Int2(i)))
  {
  }

  lemma PushPcHighCycle(c: Cpu, d: bv8, i: Interrupt)
    requires c.state == Int2(i) && i != Rst
    ensures Request(c) == WriteAt(Stack(c.regs.s), Hi(c.pc))
    ensures After(c, d) == Settle(c.(regs := c.regs.(s := c.regs.s - 1), state := Int3(i)))
  {
  }

  /** Without hijacking (both lines clear), the third cycle pushes the low
      byte and keeps the interrupt; only BRK sets the B bit. */
  lemma PushPcLowCycle(c: Cpu, d: bv8, i: Interrupt)
    requires c.state == Int3(i) && i != Rst && c.nmi == Clear && c.irq == Clear
    ensures Request(c) == WriteAt(Stack(c.regs.s), Lo(c.pc))
    ensures After(c, d) == Settle(c.(regs := c.regs.(s := c.regs.s - 1), state := Int4(i, i == Brk)))
  {
  }

  /** Hijacking: an NMI signalled by the end of the low-byte push takes
      over a BRK or IRQ sequence, and an IRQ takes over a BRK; a hijacked
      BRK still pushes the B bit. */
  lemma Int3Hijack(c: Cpu, d: bv8, n: Line)
    requires c.state.Int3?
    ensures c.state.i == Brk && n != Clear ==> NextState(c, d, n) == Int4(Nmi, true)
    ensures c.state.i == Brk && n == Clear && c.irq != Clear ==> NextState(c, d, n) == Int4(Irq, true)
    ensures c.state.i == Brk && n == Clear && c.irq == Clear ==> NextState(c, d, n) == Int4(Brk, true)
    ensures c.state.i == Irq && n != Clear ==> NextState(c, d, n) == Int4(Nmi, false)
    ensures c.state.i == Irq && n == Clear ==> NextState(c, d, n) == Int4(Irq, false)
    ensures c.state.i == Nmi || c.state.i == Rst ==> NextState(c, d, n) == Int4(c.state.i, false)
  {
  }

  /** The status byte pushed by an interrupt has bit 5 set and bit 4 set
      exactly when the B flag is. */
  lemma PushStatusCycle(c: Cpu, d: bv8, i: Interrupt, b: bool)
    requires c.state == Int4(i, b) && i != Rst
    ensures Request(c) == WriteAt(Stack(c.regs.s), StatusByte(c.regs.f, b))
    ensures After(c, d) == Settle(c.(regs := c.regs.(s := c.regs.s - 1), state := Int5(i)))
  {
  }

  /** During reset the three push cycles read the stack instead, and the
      stack pointer still moves down. */
  lemma ResetStackHighCycle(c: Cpu, d: bv8)
    requires c.state == Int2(Rst)
    ensures Request(c) == ReadAt(Stack(c.regs.s))
    ensures After(c, d) == Settle(c.(regs := c.regs.(s := c.regs.s - 1), state := Int3(Rst)))
  {
  }

  lemma ResetStackLowCycle(c: Cpu, d: bv8)
    requires c.state == Int3(Rst)
    ensures Request(c) == ReadAt(Stack(c.regs.s))
    ensures After(c, d) == Settle(c.(regs := c.regs.(s := c.regs.s - 1), state := Int4(Rst, false)))
  {
  }

  lemma ResetStackStatusCycle(c: Cpu, d: bv8, b: bool)
    requires c.state == Int4(Rst, b)
    ensures Request(c) == ReadAt(Stack(c.regs.s))
    ensures After(c, d) == Settle(c.(regs := c.regs.(s := c.regs.s - 1), state := Int5(Rst)))
  {
  }

  /** The low vector byte is read and interrupts are masked. */
  lemma VectorLowCycle(c: Cpu, d: bv8, i: Interrupt)
    requires c.state == Int5(i)
    ensures Request(c) == ReadAt(VectorLo(i))
    ensures After(c, d) == Settle(c.(regs := c.regs.(f := c.regs.f.(i := true)), state := Int6(i, d)))
  {
  }

  lemma VectorHighCycle(c: Cpu, d: bv8, i: Interrupt, low: bv8)
    requires c.state == Int6(i, low)
    ensures Request(c) == ReadAt(VectorHi(i))
    ensures After(c, d) == Settle(c.(pc := Word(d, low), state := FetchOpcode))
  {
  }

  // Stack instructions.

  lemma PhpCycle(c: Cpu, d: bv8)
    requires c.state == PHP
    ensures Request(c) == NoAccess
    ensures After(c, d) == Settle(c.(state := PHPA(StatusByte(c.regs.f, true))))
  {
  }

  lemma PhaCycle(c: Cpu, d: bv8)
    requires c.state == PHA
    ensures Request(c) == NoAccess
    ensures After(c, d) == Settle(c.(state := PHPA(c.regs.a)))
  {
  }

  lemma PushCycle(c: Cpu, d: bv8, v: bv8)
    requires c.state == PHPA(v)
    ensures Request(c) == WriteAt(Stack(c.regs.s), v)
    ensures After(c, d) == Settle(c.(regs := c.regs.(s := c.regs.s - 1), state := FetchOpcode))
  {
  }

  lemma PlpStartCycle(c: Cpu, d: bv8)
    requires c.state == PLP
    ensures Request(c) == NoAccess
    ensures After(c, d) == Settle(c.(state := PLP2))
  {
  }

  lemma PlaStartCycle(c: Cpu, d: bv8)
    requires c.state == PLA
    ensures Request(c) == NoAccess
    ensures After(c, d) == Settle(c.(state := PLA2))
  {
  }

  lemma PlpDummyCycle(c: Cpu, d: bv8)
    requires c.state == PLP2
    ensures Request(c) == ReadAt(Stack(c.regs.s))
    ensures After(c, d) == Settle(c.(state := PLP3))
  {
  }

  lemma PlaDummyCycle(c: Cpu, d: bv8)
    requires c.state == PLA2
    ensures Request(c) == ReadAt(Stack(c.regs.s))
    ensures After(c, d) == Settle(c.(state := PLA3))
  {
  }

  /** PLP takes the flags from the pulled byte, bits 4 and 5 dropped. */
  lemma PlpCycle(c: Cpu, d: bv8)
    requires c.state == PLP3
    ensures Request(c) == ReadAt(Stack(c.regs.s + 1))
    ensures After(c, d) == Settle(c.(regs := c.regs.(s := c.regs.s + 1, f := PulledFlags(d)), state := FetchOpcode))
  {
  }

  lemma PlaCycle(c: Cpu, d: bv8)
    requires c.state == PLA3
    ensures Request(c) == ReadAt(Stack(c.regs.s + 1))
    ensures After(c, d) == Settle(c.(regs := SetZN(c.regs.(s := c.regs.s + 1), d).(a := d), state := FetchOpcode))
  {
  }

  lemma JsrLowCycle(c: Cpu, d: bv8)
    requires c.state == JSR
    ensures Request(c) == ReadAt(c.pc)
    ensures After(c, d) == Settle(c.(pc := c.pc + 1, state := JSR2(d)))
  {
  }

  lemma JsrDummyCycle(c: Cpu, d: bv8, low: bv8)
    requires c.state == JSR2(low)
    ensures Request(c) == ReadAt(Stack(c.regs.s))
    ensures After(c, d) == Settle(c.(state := JSR3(low)))
  {
  }

  lemma JsrPushHighCycle(c: Cpu, d: bv8, low: bv8)
    requires c.state == JSR3(low)
    ensures Request(c) == WriteAt(Stack(c.regs.s), Hi(c.pc))
    ensures After(c, d) == Settle(c.(regs := c.regs.(s := c.regs.s - 1), state := JSR4(low)))
  {
  }

  lemma JsrPushLowCycle(c: Cpu, d: bv8, low: bv8)
    requires c.state == JSR4(low)
    ensures Request(c) == WriteAt(Stack(c.regs.s), Lo(c.pc))
    ensures After(c, d) == Settle(c.(regs := c.regs.(s := c.regs.s - 1), state := JSR5(low)))
  {
  }

  lemma JsrHighCycle(c: Cpu, d: bv8, low: bv8)
    requires c.state == JSR5(low)
    ensures Request(c) == ReadAt(c.pc)
    ensures After(c, d) == Settle(c.(pc := Word(d, low), state := FetchOpcode))
  {
  }

  lemma RtsStartCycle(c: Cpu, d: bv8)
    requires c.state == RTS
    ensures Request(c) == NoAccess
    ensures After(c, d) == Settle(c.(state := RTS2))
  {
  }

  lemma RtsDummyCycle(c: Cpu, d: bv8)
    requires c.state == RTS2
    ensures Request(c) == ReadAt(Stack(c.regs.s))
    ensures After(c, d) == Settle(c.(regs := c.regs.(s := c.regs.s + 1), state := RTS3))
  {
  }

  lemma RtsLowCycle(c: Cpu, d: bv8)
    requires c.state == RTS3
    ensures Request(c) == ReadAt(Stack(c.regs.s))
    ensures After(c, d) == Settle(c.(regs := c.regs.(s := c.regs.s + 1), state := RTS4(d)))
  {
  }

  lemma RtsHighCycle(c: Cpu, d: bv8, low: bv8)
    requires c.state == RTS4(low)
    ensures Request(c) == ReadAt(Stack(c.regs.s))
    ensures After(c, d) == Settle(c.(pc := Word(d, low), state := RTS5))
  {
  }

  lemma RtsSkipCycle(c: Cpu, d: bv8)
    requires c.state == RTS5
    ensures Request(c) == ReadAt(c.pc)
    ensures After(c, d) == Settle(c.(pc := c.pc + 1, state := FetchOpcode))
  {
  }
}
