/** Instruction-level traces of the covnes CPU (covnes/src/cpu.rs) against
    flat memory: for each addressing tail, branch, interrupt sequence and
    stack instruction, the exact bus events cycle by cycle, the memory
    afterwards and the registers it leaves. */
module CpuProps {
  import opened Common
  import opened Alu
  import opened Cpu6502
  import opened CpuTrace
  import opened CpuCycles
  import opened CpuSteps

  // Indexed addressing (absolute,X / absolute,Y / (indirect),Y).

  /** An indexed read whose index carries into the high byte takes three
      cycles after the low byte: the high byte, a dummy read at the
      unfixed address, then the real read one page up. */
  lemma IndexedReadCrossesPage(c: Cpu, mem: Mem, ro: ReadOp, addr: bv16, lowWord: bv16)
    requires c.state == AddLowHigh(OpRead(ro), addr, lowWord) && lowWord > 0xFF
    ensures Run(c, mem, 3)
            == Trace(Continue(Settle(c.(regs := ExecRead(ro, c.regs, mem(Word(mem(addr), Lo(lowWord)) + 0x100)), state := FetchOpcode))), mem,
                     [Rd(addr, mem(addr)), Rd(Word(mem(addr), Lo(lowWord)), mem(Word(mem(addr), Lo(lowWord)))), Rd(Word(mem(addr), Lo(lowWord)) + 0x100, mem(Word(mem(addr), Lo(lowWord)) + 0x100))])
  {
    ReadCarryTick(c, mem, ro, addr, lowWord);
    ReadCrossStep2(c, mem, ro, addr, lowWord);
    ReadCrossStep3(c, mem, ro, addr, lowWord);
    var fake := Word(mem(addr), Lo(lowWord));
    var actual := fake + 0x100;
    var c1 := Settle(c.(state := FakeThenActual(OpRead(ro), fake, actual)));
    var c2 := Settle(c.(state := ExecuteOnAddress(OpRead(ro), actual, Hi(fake))));
    var c3 := Settle(c.(regs := ExecRead(ro, c.regs, mem(actual)), state := FetchOpcode));
    Chain3(Tick, c, mem, Rd(addr, mem(addr)), c1, mem, Rd(fake, mem(fake)), c2, mem, Rd(actual, mem(actual)), c3, mem);
  }

  /** An indexed read that stays in the page takes two cycles after the
      low byte: the high byte, then the read itself. */
  lemma IndexedReadSamePage(c: Cpu, mem: Mem, ro: ReadOp, addr: bv16, lowWord: bv16)
    requires c.state == AddLowHigh(OpRead(ro), addr, lowWord) && lowWord <= 0xFF
    ensures Run(c, mem, 2)
            == Trace(Continue(Settle(c.(regs := ExecRead(ro, c.regs, mem(Word(mem(addr), Lo(lowWord)))), state := FetchOpcode))), mem,
                     [Rd(addr, mem(addr)), Rd(Word(mem(addr), Lo(lowWord)), mem(Word(mem(addr), Lo(lowWord))))])
  {
    ReadNoCarryTick(c, mem, ro, addr, lowWord);
    ReadTick(Settle(c.(state := ExecuteOnAddress(OpRead(ro), Word(mem(addr), Lo(lowWord)), mem(addr)))), mem, ro, Word(mem(addr), Lo(lowWord)), mem(addr));
    Chain2(Tick, c, mem, Rd(addr, mem(addr)), Settle(c.(state := ExecuteOnAddress(OpRead(ro), Word(mem(addr), Lo(lowWord)), mem(addr)))), mem, Rd(Word(mem(addr), Lo(lowWord)), mem(Word(mem(addr), Lo(lowWord)))),
           Settle(c.(regs := ExecRead(ro, c.regs, mem(Word(mem(addr), Lo(lowWord)))), state := FetchOpcode)), mem);
  }

  /** An indexed write always spends the dummy read at the unfixed
      address; when the index carries, the write lands one page up. */
  lemma IndexedWriteCrossesPage(c: Cpu, mem: Mem, w: WriteOp, addr: bv16, lowWord: bv16)
    requires c.state == AddLowHigh(OpWrite(w), addr, lowWord) && lowWord > 0xFF
    ensures Run(c, mem, 3)
            == Trace(Continue(Settle(c.(state := FetchOpcode))), Store(mem, Word(mem(addr), Lo(lowWord)) + 0x100, ExecWrite(w, c.regs)),
                     [Rd(addr, mem(addr)), Rd(Word(mem(addr), Lo(lowWord)), mem(Word(mem(addr), Lo(lowWord)))), Wr(Word(mem(addr), Lo(lowWord)) + 0x100, ExecWrite(w, c.regs))])
  {
    WriteCarryTick(c, mem, w, addr, lowWord);
    WriteCrossStep2(c, mem, w, addr, lowWord);
    WriteCrossStep3(c, mem, w, addr, lowWord);
    Chain3(Tick, c, mem, Rd(addr, mem(addr)), Settle(c.(state := FakeThenActual(OpWrite(w), Word(mem(addr), Lo(lowWord)), Word(mem(addr), Lo(lowWord)) + 0x100))), mem, Rd(Word(mem(addr), Lo(lowWord)), mem(Word(mem(addr), Lo(lowWord)))), Settle(c.(state := ExecuteOnAddress(OpWrite(w), Word(mem(addr), Lo(lowWord)) + 0x100, Hi(Word(mem(addr), Lo(lowWord)))))), mem, Wr(Word(mem(addr), Lo(lowWord)) + 0x100, ExecWrite(w, c.regs)), Settle(c.(state := FetchOpcode)), Store(mem, Word(mem(addr), Lo(lowWord)) + 0x100, ExecWrite(w, c.regs)));
  }

  /** An indexed write that stays in the page still spends the dummy read,
      at the very address it then writes. */
  lemma IndexedWriteSamePage(c: Cpu, mem: Mem, w: WriteOp, addr: bv16, lowWord: bv16)
    requires c.state == AddLowHigh(OpWrite(w), addr, lowWord) && lowWord <= 0xFF
    ensures Run(c, mem, 3)
            == Trace(Continue(Settle(c.(state := FetchOpcode))), Store(mem, Word(mem(addr), Lo(lowWord)), ExecWrite(w, c.regs)),
                     [Rd(addr, mem(addr)), Rd(Word(mem(addr), Lo(lowWord)), mem(Word(mem(addr), Lo(lowWord)))), Wr(Word(mem(addr), Lo(lowWord)), ExecWrite(w, c.regs))])
  {
    WriteNoCarryTick(c, mem, w, addr, lowWord);
    FakeTick(Settle(c.(state := FakeThenActual(OpWrite(w), Word(mem(addr), Lo(lowWord)), Word(mem(addr), Lo(lowWord))))), mem, OpWrite(w), Word(mem(addr), Lo(lowWord)), Word(mem(addr), Lo(lowWord)));
    WriteTick(Settle(Settle(c.(state := FakeThenActual(OpWrite(w), Word(mem(addr), Lo(lowWord)), Word(mem(addr), Lo(lowWord))))).(state := ExecuteOnAddress(OpWrite(w), Word(mem(addr), Lo(lowWord)), Hi(Word(mem(addr), Lo(lowWord)))))), mem, w, Word(mem(addr), Lo(lowWord)), Hi(Word(mem(addr), Lo(lowWord))));
    Chain3(Tick, c, mem, Rd(addr, mem(addr)), Settle(c.(state := FakeThenActual(OpWrite(w), Word(mem(addr), Lo(lowWord)), Word(mem(addr), Lo(lowWord))))), mem, Rd(Word(mem(addr), Lo(lowWord)), mem(Word(mem(addr), Lo(lowWord)))),
           Settle(Settle(c.(state := FakeThenActual(OpWrite(w), Word(mem(addr), Lo(lowWord)), Word(mem(addr), Lo(lowWord))))).(state := ExecuteOnAddress(OpWrite(w), Word(mem(addr), Lo(lowWord)), Hi(Word(mem(addr), Lo(lowWord)))))), mem, Wr(Word(mem(addr), Lo(lowWord)), ExecWrite(w, c.regs)),
           Settle(c.(state := FetchOpcode)), Store(mem, Word(mem(addr), Lo(lowWord)), ExecWrite(w, c.regs)));
  }

  // Read-modify-write.

  /** A read-modify-write on its address: one read, then the original value
      written back, then the new value written: exactly two writes, both to
      the address read. */
  lemma ReadModifyWrite(c: Cpu, mem: Mem, rw: ReadWriteOp, addr: bv16, h: bv8)
    requires c.state == ExecuteOnAddress(OpReadWrite(rw), addr, h)
    ensures Run(c, mem, 3)
            == Trace(Continue(Settle(c.(regs := ExecRmw(rw, c.regs, mem(addr)).regs, state := FetchOpcode))),
                     Store(Store(mem, addr, mem(addr)), addr, ExecRmw(rw, c.regs, mem(addr)).value),
                     [Rd(addr, mem(addr)), Wr(addr, mem(addr)), Wr(addr, ExecRmw(rw, c.regs, mem(addr)).value)])
  {
    RmwReadTick(c, mem, rw, addr, h);
    WriteBackTick(Settle(c.(regs := ExecRmw(rw, c.regs, mem(addr)).regs, state := WriteBackThenWrite(addr, mem(addr), ExecRmw(rw, c.regs, mem(addr)).value))), mem, addr, mem(addr), ExecRmw(rw, c.regs, mem(addr)).value);
    WriteValueTick(Settle(Settle(c.(regs := ExecRmw(rw, c.regs, mem(addr)).regs, state := WriteBackThenWrite(addr, mem(addr), ExecRmw(rw, c.regs, mem(addr)).value))).(state := WriteValue(addr, ExecRmw(rw, c.regs, mem(addr)).value))), Store(mem, addr, mem(addr)), addr, ExecRmw(rw, c.regs, mem(addr)).value);
    Chain3(Tick, c, mem, Rd(addr, mem(addr)), Settle(c.(regs := ExecRmw(rw, c.regs, mem(addr)).regs, state := WriteBackThenWrite(addr, mem(addr), ExecRmw(rw, c.regs, mem(addr)).value))), mem, Wr(addr, mem(addr)),
           Settle(Settle(c.(regs := ExecRmw(rw, c.regs, mem(addr)).regs, state := WriteBackThenWrite(addr, mem(addr), ExecRmw(rw, c.regs, mem(addr)).value))).(state := WriteValue(addr, ExecRmw(rw, c.regs, mem(addr)).value))), Store(mem, addr, mem(addr)), Wr(addr, ExecRmw(rw, c.regs, mem(addr)).value),
           Settle(c.(regs := ExecRmw(rw, c.regs, mem(addr)).regs, state := FetchOpcode)), Store(Store(mem, addr, mem(addr)), addr, ExecRmw(rw, c.regs, mem(addr)).value));
  }

  /** After a read-modify-write, memory holds the new value at the address
      and nothing else has changed. */
  lemma ReadModifyWriteStores(mem: Mem, addr: bv16, v: bv8, v': bv8)
    ensures Store(Store(mem, addr, v), addr, v')(addr) == v'
    ensures forall a :: a != addr ==> Store(Store(mem, addr, v), addr, v')(a) == mem(a)
  {
  }

  // Branches.

  /** A branch not taken costs one cycle after its opcode: the offset read. */
  lemma BranchNotTaken(c: Cpu, mem: Mem, bo: BranchOp)
    requires c.state == Relative(bo) && !Taken(bo, c.regs)
    ensures Run(c, mem, 1) == Trace(Continue(Settle(c.(pc := c.pc + 1, state := FetchOpcode))), mem, [Rd(c.pc, mem(c.pc))])
  {
    NotTakenTick(c, mem, bo);
    RunAlongPath(Tick, [c, Settle(c.(pc := c.pc + 1, state := FetchOpcode))], [mem, mem], [Rd(c.pc, mem(c.pc))]);
  }

  /** A taken branch within the page costs one idle cycle more and lands at
      the address after the operand moved by the signed offset. */
  lemma BranchTakenSamePage(c: Cpu, mem: Mem, bo: BranchOp)
    requires c.state == Relative(bo) && Taken(bo, c.regs) && Hi(c.pc + 1) == Hi(BranchTarget(c.pc + 1, mem(c.pc)))
    ensures Run(c, mem, 2) == Trace(Continue(Settle(c.(pc := BranchTarget(c.pc + 1, mem(c.pc)), state := FetchOpcode))), mem,
                                    [Rd(c.pc, mem(c.pc)), Idle])
  {
    TakenTick(c, mem, bo);
    SamePageTick(Settle(c.(pc := c.pc + 1, state := Relative2(mem(c.pc)))), mem, mem(c.pc));
    Chain2(Tick, c, mem, Rd(c.pc, mem(c.pc)), Settle(c.(pc := c.pc + 1, state := Relative2(mem(c.pc)))), mem, Idle,
           Settle(c.(pc := BranchTarget(c.pc + 1, mem(c.pc)), state := FetchOpcode)), mem);
  }

  /** A taken branch into another page costs a further cycle: a dummy read
      at the target's low byte in the old page. */
  lemma BranchTakenCrossPage(c: Cpu, mem: Mem, bo: BranchOp)
    requires c.state == Relative(bo) && Taken(bo, c.regs) && Hi(c.pc + 1) != Hi(BranchTarget(c.pc + 1, mem(c.pc)))
    ensures Run(c, mem, 3) == Trace(Continue(Settle(c.(pc := BranchTarget(c.pc + 1, mem(c.pc)), state := FetchOpcode))), mem,
                                    [Rd(c.pc, mem(c.pc)), Idle, Rd(BranchFixupAddress(c.pc + 1, BranchTarget(c.pc + 1, mem(c.pc))), mem(BranchFixupAddress(c.pc + 1, BranchTarget(c.pc + 1, mem(c.pc)))))])
  {
    TakenTick(c, mem, bo);
    CrossPageTick(Settle(c.(pc := c.pc + 1, state := Relative2(mem(c.pc)))), mem, mem(c.pc));
    FixupTick(Settle(Settle(c.(pc := c.pc + 1, state := Relative2(mem(c.pc)))).(pc := BranchTarget(c.pc + 1, mem(c.pc)), state := Relative3(BranchFixupAddress(c.pc + 1, BranchTarget(c.pc + 1, mem(c.pc)))))), mem, BranchFixupAddress(c.pc + 1, BranchTarget(c.pc + 1, mem(c.pc))));
    Chain3(Tick, c, mem, Rd(c.pc, mem(c.pc)), Settle(c.(pc := c.pc + 1, state := Relative2(mem(c.pc)))), mem, Idle, Settle(Settle(c.(pc := c.pc + 1, state := Relative2(mem(c.pc)))).(pc := BranchTarget(c.pc + 1, mem(c.pc)), state := Relative3(BranchFixupAddress(c.pc + 1, BranchTarget(c.pc + 1, mem(c.pc)))))), mem, Rd(BranchFixupAddress(c.pc + 1, BranchTarget(c.pc + 1, mem(c.pc))), mem(BranchFixupAddress(c.pc + 1, BranchTarget(c.pc + 1, mem(c.pc))))),
           Settle(c.(pc := BranchTarget(c.pc + 1, mem(c.pc)), state := FetchOpcode)), mem);
  }

  // Stack instructions.

  /** Pushing and pulling the status agree: whatever PHP, BRK, NMI or IRQ
      pushes, PLP and RTI turn back into exactly the flags pushed. */
  lemma PushPullFlags(f: Flags, b: bool)
    ensures PulledFlags(StatusByte(f, b)) == f
  {
  }

  /** A pulled status byte never keeps bits 4 and 5: they do not exist in
      the flags. */
  lemma PulledFlagsDropBits(v: bv8)
    ensures Pack(PulledFlags(v)) == v & 0xCF
  {
  }

  /** PHP: an idle cycle, then the status with bits 4 and 5 set pushed at
      0x100 | S, and S decremented. */
  lemma PhpTrace(c: Cpu, mem: Mem)
    requires c.state == PHP
    ensures Run(c, mem, 2)
            == Trace(Continue(Settle(c.(regs := c.regs.(s := c.regs.s - 1), state := FetchOpcode))),
                     Store(mem, Stack(c.regs.s), StatusByte(c.regs.f, true)), [Idle, Wr(Stack(c.regs.s), StatusByte(c.regs.f, true))])
  {
    PhpTick(c, mem);
    PushTick(Settle(c.(state := PHPA(StatusByte(c.regs.f, true)))), mem, StatusByte(c.regs.f, true));
    Chain2(Tick, c, mem, Idle, Settle(c.(state := PHPA(StatusByte(c.regs.f, true)))), mem, Wr(Stack(c.regs.s), StatusByte(c.regs.f, true)),
           Settle(c.(regs := c.regs.(s := c.regs.s - 1), state := FetchOpcode)), Store(mem, Stack(c.regs.s), StatusByte(c.regs.f, true)));
  }

  /** PHA: an idle cycle, then A pushed at 0x100 | S, and S decremented. */
  lemma PhaTrace(c: Cpu, mem: Mem)
    requires c.state == PHA
    ensures Run(c, mem, 2)
            == Trace(Continue(Settle(c.(regs := c.regs.(s := c.regs.s - 1), state := FetchOpcode))),
                     Store(mem, Stack(c.regs.s), c.regs.a), [Idle, Wr(Stack(c.regs.s), c.regs.a)])
  {
    PhaTick(c, mem);
    PushTick(Settle(c.(state := PHPA(c.regs.a))), mem, c.regs.a);
    Chain2(Tick, c, mem, Idle, Settle(c.(state := PHPA(c.regs.a))), mem, Wr(Stack(c.regs.s), c.regs.a),
           Settle(c.(regs := c.regs.(s := c.regs.s - 1), state := FetchOpcode)), Store(mem, Stack(c.regs.s), c.regs.a));
  }

  /** PLP: an idle cycle, a dummy read at 0x100 | S, then the flags from
      0x100 | (S + 1); memory is untouched. */
  lemma PlpTrace(c: Cpu, mem: Mem)
    requires c.state == PLP
    ensures Run(c, mem, 3) == Trace(Continue(Settle(c.(regs := c.regs.(s := c.regs.s + 1, f := PulledFlags(mem(Stack(c.regs.s + 1)))), state := FetchOpcode))), mem, [Idle, Rd(Stack(c.regs.s), mem(Stack(c.regs.s))), Rd(Stack(c.regs.s + 1), mem(Stack(c.regs.s + 1)))])
  {
    PlpStartTick(c, mem);
    PlpStep2(c, mem);
    PlpStep3(c, mem);
    Chain3(Tick, c, mem, Idle, Settle(c.(state := PLP2)), mem, Rd(Stack(c.regs.s), mem(Stack(c.regs.s))), Settle(c.(state := PLP3)), mem, Rd(Stack(c.regs.s + 1), mem(Stack(c.regs.s + 1))), Settle(c.(regs := c.regs.(s := c.regs.s + 1, f := PulledFlags(mem(Stack(c.regs.s + 1)))), state := FetchOpcode)), mem);
  }

  /** PLA: an idle cycle, a dummy read at 0x100 | S, then A from
      0x100 | (S + 1) with Z and N set from it. */
  lemma PlaTrace(c: Cpu, mem: Mem)
    requires c.state == PLA
    ensures Run(c, mem, 3) == Trace(Continue(Settle(c.(regs := SetZN(c.regs.(s := c.regs.s + 1), mem(Stack(c.regs.s + 1))).(a := mem(Stack(c.regs.s + 1))), state := FetchOpcode))), mem, [Idle, Rd(Stack(c.regs.s), mem(Stack(c.regs.s))), Rd(Stack(c.regs.s + 1), mem(Stack(c.regs.s + 1)))])
  {
    PlaStartTick(c, mem);
    PlaStep2(c, mem);
    PlaStep3(c, mem);
    Chain3(Tick, c, mem, Idle, Settle(c.(state := PLA2)), mem, Rd(Stack(c.regs.s), mem(Stack(c.regs.s))), Settle(c.(state := PLA3)), mem, Rd(Stack(c.regs.s + 1), mem(Stack(c.regs.s + 1))), Settle(c.(regs := SetZN(c.regs.(s := c.regs.s + 1), mem(Stack(c.regs.s + 1))).(a := mem(Stack(c.regs.s + 1))), state := FetchOpcode)), mem);
  }

  /** A PHP followed by a PLP restores the flags: PLP reads back, one above
      the stack pointer PHP leaves, the byte PHP stored. */
  lemma PhpPlpRoundTrip(mem: Mem, s: bv8, f: Flags)
    ensures PulledFlags(Store(mem, Stack(s), StatusByte(f, true))(Stack(s - 1 + 1))) == f
  {
    PushPullFlags(f, true);
  }

  /** A PHA followed by a PLA restores A. */
  lemma PhaPlaRoundTrip(mem: Mem, s: bv8, a: bv8)
    ensures Store(mem, Stack(s), a)(Stack(s - 1 + 1)) == a
  {
  }

  // Subroutines.

  /** JSR after its opcode: the low target byte, a dummy stack read, the
      address of its own last byte pushed high byte first, then the high
      target byte, read after the pushes. */
  lemma JsrTrace(c: Cpu, mem: Mem)
    requires c.state == JSR
    ensures Run(c, mem, 5) == Trace(Continue(Settle(c.(pc := Word(Store(Store(mem, Stack(c.regs.s), Hi(c.pc + 1)), Stack(c.regs.s - 1), Lo(c.pc + 1))(c.pc + 1), mem(c.pc)), regs := c.regs.(s := c.regs.s - 2), state := FetchOpcode))), Store(Store(mem, Stack(c.regs.s), Hi(c.pc + 1)), Stack(c.regs.s - 1), Lo(c.pc + 1)), [Rd(c.pc, mem(c.pc)), Rd(Stack(c.regs.s), mem(Stack(c.regs.s))), Wr(Stack(c.regs.s), Hi(c.pc + 1)), Wr(Stack(c.regs.s - 1), Lo(c.pc + 1)), Rd(c.pc + 1, Store(Store(mem, Stack(c.regs.s), Hi(c.pc + 1)), Stack(c.regs.s - 1), Lo(c.pc + 1))(c.pc + 1))])
  {
    JsrLowTick(c, mem);
    JsrStep2(c, mem);
    JsrStep3(c, mem);
    JsrStep4(c, mem);
    JsrStep5(c, mem);
    var s := c.regs.s;
    var ret := c.pc + 1;
    var mem1 := Store(mem, Stack(s), Hi(ret));
    var mem2 := Store(mem1, Stack(s - 1), Lo(ret));
    var c1 := Settle(c.(pc := ret, state := JSR2(mem(c.pc))));
    var c2 := Settle(c.(pc := ret, state := JSR3(mem(c.pc))));
    var c3 := Settle(c.(pc := ret, regs := c.regs.(s := s - 1), state := JSR4(mem(c.pc))));
    var c4 := Settle(c.(pc := ret, regs := c.regs.(s := s - 2), state := JSR5(mem(c.pc))));
    var c5 := Settle(c.(pc := Word(mem2(ret), mem(c.pc)), regs := c.regs.(s := s - 2), state := FetchOpcode));
    Chain5(Tick, c, mem, Rd(c.pc, mem(c.pc)), c1, mem, Rd(Stack(s), mem(Stack(s))), c2, mem, Wr(Stack(s), Hi(ret)), c3, mem1,
           Wr(Stack(s - 1), Lo(ret)), c4, mem2, Rd(ret, mem2(ret)), c5, mem2);
  }

  /** RTS after its opcode: an idle cycle, a dummy stack read, the return
      address pulled low byte first from 0x100 | (S + 1) and 0x100 | (S + 2),
      a dummy read there, and execution resumes one byte further on. */
  lemma RtsTrace(c: Cpu, mem: Mem)
    requires c.state == RTS
    ensures Run(c, mem, 5) == Trace(Continue(Settle(c.(pc := Word(mem(Stack(c.regs.s + 2)), mem(Stack(c.regs.s + 1))) + 1, regs := c.regs.(s := c.regs.s + 2), state := FetchOpcode))), mem, [Idle, Rd(Stack(c.regs.s), mem(Stack(c.regs.s))), Rd(Stack(c.regs.s + 1), mem(Stack(c.regs.s + 1))), Rd(Stack(c.regs.s + 2), mem(Stack(c.regs.s + 2))), Rd(Word(mem(Stack(c.regs.s + 2)), mem(Stack(c.regs.s + 1))), mem(Word(mem(Stack(c.regs.s + 2)), mem(Stack(c.regs.s + 1)))))])
  {
    RtsStartTick(c, mem);
    RtsStep2(c, mem);
    RtsStep3(c, mem);
    RtsStep4(c, mem);
    RtsStep5(c, mem);
    Chain5(Tick, c, mem, Idle, Settle(c.(state := RTS2)), mem, Rd(Stack(c.regs.s), mem(Stack(c.regs.s))), Settle(c.(regs := c.regs.(s := c.regs.s + 1), state := RTS3)), mem, Rd(Stack(c.regs.s + 1), mem(Stack(c.regs.s + 1))), Settle(c.(regs := c.regs.(s := c.regs.s + 2), state := RTS4(mem(Stack(c.regs.s + 1))))), mem, Rd(Stack(c.regs.s + 2), mem(Stack(c.regs.s + 2))), Settle(c.(pc := Word(mem(Stack(c.regs.s + 2)), mem(Stack(c.regs.s + 1))), regs := c.regs.(s := c.regs.s + 2), state := RTS5)), mem, Rd(Word(mem(Stack(c.regs.s + 2)), mem(Stack(c.regs.s + 1))), mem(Word(mem(Stack(c.regs.s + 2)), mem(Stack(c.regs.s + 1))))), Settle(c.(pc := Word(mem(Stack(c.regs.s + 2)), mem(Stack(c.regs.s + 1))) + 1, regs := c.regs.(s := c.regs.s + 2), state := FetchOpcode)), mem);
  }

  /** Two single pulls move the stack pointer as far as one double pull. */
  lemma StackStep(s: bv8)
    ensures s + 1 + 1 == s + 2 && Stack(s + 1 + 1) == Stack(s + 2)
  {
  }

  /** JSR and RTS are inverse on the stack: what JSR pushes, RTS pulls from
      the stack pointer JSR leaves, and the return lands one past the
      address JSR pushed, which is the instruction after the JSR. */
  lemma JsrRtsRoundTrip(mem: Mem, s: bv8, ret: bv16)
    ensures Word(Store(Store(mem, Stack(s), Hi(ret)), Stack(s - 1), Lo(ret))(Stack(s - 2 + 2)),
                 Store(Store(mem, Stack(s), Hi(ret)), Stack(s - 1), Lo(ret))(Stack(s - 2 + 1))) + 1 == ret + 1
  {
    assert s - 2 + 2 == s && s - 2 + 1 == s - 1;
    assert Stack(s) != Stack(s - 1);
    WordRoundTrip(ret, 0, 0);
  }

  // Interrupts and reset.

  /** The stack page and the vectors do not overlap. */
  lemma StackMissesVectors(s: bv8, i: Interrupt)
    ensures Stack(s) != VectorLo(i) && Stack(s) != VectorHi(i)
  {
  }

  /** BRK after its opcode: a read of the padding byte, which it skips, then
      the pushes of the address after it and of the status with bit 4 set,
      then the IRQ/BRK vector. */
  lemma BrkSequence(c: Cpu, mem: Mem)
    requires c.state == Int(Brk) && c.nmi == Clear && c.irq == Clear
    ensures Run(c, mem, 6) == Trace(Continue(c.(pc := Word(mem(VectorHi(Brk)), mem(VectorLo(Brk))), regs := c.regs.(s := c.regs.s - 3, f := c.regs.f.(i := true)), state := FetchOpcode)), Store(Store(Store(mem, Stack(c.regs.s), Hi(c.pc + 1)), Stack(c.regs.s - 1), Lo(c.pc + 1)), Stack(c.regs.s - 2), StatusByte(c.regs.f, true)),
                                    [Rd(c.pc + 1, mem(c.pc + 1)), Wr(Stack(c.regs.s), Hi(c.pc + 1)), Wr(Stack(c.regs.s - 1), Lo(c.pc + 1)), Wr(Stack(c.regs.s - 2), StatusByte(c.regs.f, true)), Rd(VectorLo(Brk), mem(VectorLo(Brk))), Rd(VectorHi(Brk), mem(VectorHi(Brk)))])
  {
    StackMissesVectors(c.regs.s, Brk);
    StackMissesVectors(c.regs.s - 1, Brk);
    StackMissesVectors(c.regs.s - 2, Brk);
    IntBrkTick(c, mem);
    PushPcHighTick(Settle(c.(pc := c.pc + 1, state := Int2(Brk))), mem, Brk);
    PushPcLowTick(Settle(c.(pc := c.pc + 1, regs := c.regs.(s := c.regs.s - 1), state := Int3(Brk))), Store(mem, Stack(c.regs.s), Hi(c.pc + 1)), Brk);
    PushStatusTick(c.(pc := c.pc + 1, regs := c.regs.(s := c.regs.s - 2), state := Int4(Brk, true)), Store(Store(mem, Stack(c.regs.s), Hi(c.pc + 1)), Stack(c.regs.s - 1), Lo(c.pc + 1)), Brk, true);
    VectorLowTick(Settle(c.(pc := c.pc + 1, regs := c.regs.(s := c.regs.s - 3), state := Int5(Brk))), Store(Store(Store(mem, Stack(c.regs.s), Hi(c.pc + 1)), Stack(c.regs.s - 1), Lo(c.pc + 1)), Stack(c.regs.s - 2), StatusByte(c.regs.f, true)), Brk);
    VectorHighTick(Settle(c.(pc := c.pc + 1, regs := c.regs.(s := c.regs.s - 3, f := c.regs.f.(i := true)), state := Int6(Brk, mem(VectorLo(Brk))))), Store(Store(Store(mem, Stack(c.regs.s), Hi(c.pc + 1)), Stack(c.regs.s - 1), Lo(c.pc + 1)), Stack(c.regs.s - 2), StatusByte(c.regs.f, true)), Brk, mem(VectorLo(Brk)));
    Chain6(Tick, c, mem, Rd(c.pc + 1, mem(c.pc + 1)), Settle(c.(pc := c.pc + 1, state := Int2(Brk))), mem,
           Wr(Stack(c.regs.s), Hi(c.pc + 1)), Settle(c.(pc := c.pc + 1, regs := c.regs.(s := c.regs.s - 1), state := Int3(Brk))), Store(mem, Stack(c.regs.s), Hi(c.pc + 1)),
           Wr(Stack(c.regs.s - 1), Lo(c.pc + 1)), c.(pc := c.pc + 1, regs := c.regs.(s := c.regs.s - 2), state := Int4(Brk, true)), Store(Store(mem, Stack(c.regs.s), Hi(c.pc + 1)), Stack(c.regs.s - 1), Lo(c.pc + 1)),
           Wr(Stack(c.regs.s - 2), StatusByte(c.regs.f, true)), Settle(c.(pc := c.pc + 1, regs := c.regs.(s := c.regs.s - 3), state := Int5(Brk))), Store(Store(Store(mem, Stack(c.regs.s), Hi(c.pc + 1)), Stack(c.regs.s - 1), Lo(c.pc + 1)), Stack(c.regs.s - 2), StatusByte(c.regs.f, true)),
           Rd(VectorLo(Brk), mem(VectorLo(Brk))), Settle(c.(pc := c.pc + 1, regs := c.regs.(s := c.regs.s - 3, f := c.regs.f.(i := true)), state := Int6(Brk, mem(VectorLo(Brk))))), Store(Store(Store(mem, Stack(c.regs.s), Hi(c.pc + 1)), Stack(c.regs.s - 1), Lo(c.pc + 1)), Stack(c.regs.s - 2), StatusByte(c.regs.f, true)),
           Rd(VectorHi(Brk), mem(VectorHi(Brk))), c.(pc := Word(mem(VectorHi(Brk)), mem(VectorLo(Brk))), regs := c.regs.(s := c.regs.s - 3, f := c.regs.f.(i := true)), state := FetchOpcode), Store(Store(Store(mem, Stack(c.regs.s), Hi(c.pc + 1)), Stack(c.regs.s - 1), Lo(c.pc + 1)), Stack(c.regs.s - 2), StatusByte(c.regs.f, true)));
  }

  /** NMI: a dummy read at PC, which stays, then the pushes of PC and of
      the status with bit 4 clear, then the NMI vector at $FFFA. */
  lemma NmiSequence(c: Cpu, mem: Mem)
    requires c.state == Int(Nmi) && c.nmi == Clear && c.irq == Clear
    ensures Run(c, mem, 6) == Trace(Continue(c.(pc := Word(mem(VectorHi(Nmi)), mem(VectorLo(Nmi))), regs := c.regs.(s := c.regs.s - 3, f := c.regs.f.(i := true)), state := FetchOpcode)), Store(Store(Store(mem, Stack(c.regs.s), Hi(c.pc)), Stack(c.regs.s - 1), Lo(c.pc)), Stack(c.regs.s - 2), StatusByte(c.regs.f, false)),
                                    [Rd(c.pc, mem(c.pc)), Wr(Stack(c.regs.s), Hi(c.pc)), Wr(Stack(c.regs.s - 1), Lo(c.pc)), Wr(Stack(c.regs.s - 2), StatusByte(c.regs.f, false)), Rd(VectorLo(Nmi), mem(VectorLo(Nmi))), Rd(VectorHi(Nmi), mem(VectorHi(Nmi)))])
  {
    StackMissesVectors(c.regs.s, Nmi);
    StackMissesVectors(c.regs.s - 1, Nmi);
    StackMissesVectors(c.regs.s - 2, Nmi);
    IntTick(c, mem, Nmi);
    PushPcHighTick(Settle(c.(state := Int2(Nmi))), mem, Nmi);
    PushPcLowTick(Settle(c.(regs := c.regs.(s := c.regs.s - 1), state := Int3(Nmi))), Store(mem, Stack(c.regs.s), Hi(c.pc)), Nmi);
    PushStatusTick(c.(regs := c.regs.(s := c.regs.s - 2), state := Int4(Nmi, false)), Store(Store(mem, Stack(c.regs.s), Hi(c.pc)), Stack(c.regs.s - 1), Lo(c.pc)), Nmi, false);
    VectorLowTick(Settle(c.(regs := c.regs.(s := c.regs.s - 3), state := Int5(Nmi))), Store(Store(Store(mem, Stack(c.regs.s), Hi(c.pc)), Stack(c.regs.s - 1), Lo(c.pc)), Stack(c.regs.s - 2), StatusByte(c.regs.f, false)), Nmi);
    VectorHighTick(Settle(c.(regs := c.regs.(s := c.regs.s - 3, f := c.regs.f.(i := true)), state := Int6(Nmi, mem(VectorLo(Nmi))))), Store(Store(Store(mem, Stack(c.regs.s), Hi(c.pc)), Stack(c.regs.s - 1), Lo(c.pc)), Stack(c.regs.s - 2), StatusByte(c.regs.f, false)), Nmi, mem(VectorLo(Nmi)));
    Chain6(Tick, c, mem, Rd(c.pc, mem(c.pc)), Settle(c.(state := Int2(Nmi))), mem,
           Wr(Stack(c.regs.s), Hi(c.pc)), Settle(c.(regs := c.regs.(s := c.regs.s - 1), state := Int3(Nmi))), Store(mem, Stack(c.regs.s), Hi(c.pc)),
           Wr(Stack(c.regs.s - 1), Lo(c.pc)), c.(regs := c.regs.(s := c.regs.s - 2), state := Int4(Nmi, false)), Store(Store(mem, Stack(c.regs.s), Hi(c.pc)), Stack(c.regs.s - 1), Lo(c.pc)),
           Wr(Stack(c.regs.s - 2), StatusByte(c.regs.f, false)), Settle(c.(regs := c.regs.(s := c.regs.s - 3), state := Int5(Nmi))), Store(Store(Store(mem, Stack(c.regs.s), Hi(c.pc)), Stack(c.regs.s - 1), Lo(c.pc)), Stack(c.regs.s - 2), StatusByte(c.regs.f, false)),
           Rd(VectorLo(Nmi), mem(VectorLo(Nmi))), Settle(c.(regs := c.regs.(s := c.regs.s - 3, f := c.regs.f.(i := true)), state := Int6(Nmi, mem(VectorLo(Nmi))))), Store(Store(Store(mem, Stack(c.regs.s), Hi(c.pc)), Stack(c.regs.s - 1), Lo(c.pc)), Stack(c.regs.s - 2), StatusByte(c.regs.f, false)),
           Rd(VectorHi(Nmi), mem(VectorHi(Nmi))), c.(pc := Word(mem(VectorHi(Nmi)), mem(VectorLo(Nmi))), regs := c.regs.(s := c.regs.s - 3, f := c.regs.f.(i := true)), state := FetchOpcode), Store(Store(Store(mem, Stack(c.regs.s), Hi(c.pc)), Stack(c.regs.s - 1), Lo(c.pc)), Stack(c.regs.s - 2), StatusByte(c.regs.f, false)));
  }

  /** IRQ: as NMI, but through the vector at $FFFE that BRK shares. */
  lemma IrqSequence(c: Cpu, mem: Mem)
    requires c.state == Int(Irq) && c.nmi == Clear && c.irq == Clear
    ensures Run(c, mem, 6) == Trace(Continue(c.(pc := Word(mem(VectorHi(Irq)), mem(VectorLo(Irq))), regs := c.regs.(s := c.regs.s - 3, f := c.regs.f.(i := true)), state := FetchOpcode)), Store(Store(Store(mem, Stack(c.regs.s), Hi(c.pc)), Stack(c.regs.s - 1), Lo(c.pc)), Stack(c.regs.s - 2), StatusByte(c.regs.f, false)),
                                    [Rd(c.pc, mem(c.pc)), Wr(Stack(c.regs.s), Hi(c.pc)), Wr(Stack(c.regs.s - 1), Lo(c.pc)), Wr(Stack(c.regs.s - 2), StatusByte(c.regs.f, false)), Rd(VectorLo(Irq), mem(VectorLo(Irq))), Rd(VectorHi(Irq), mem(VectorHi(Irq)))])
  {
    StackMissesVectors(c.regs.s, Irq);
    StackMissesVectors(c.regs.s - 1, Irq);
    StackMissesVectors(c.regs.s - 2, Irq);
    IntTick(c, mem, Irq);
    PushPcHighTick(Settle(c.(state := Int2(Irq))), mem, Irq);
    PushPcLowTick(Settle(c.(regs := c.regs.(s := c.regs.s - 1), state := Int3(Irq))), Store(mem, Stack(c.regs.s), Hi(c.pc)), Irq);
    PushStatusTick(c.(regs := c.regs.(s := c.regs.s - 2), state := Int4(Irq, false)), Store(Store(mem, Stack(c.regs.s), Hi(c.pc)), Stack(c.regs.s - 1), Lo(c.pc)), Irq, false);
    VectorLowTick(Settle(c.(regs := c.regs.(s := c.regs.s - 3), state := Int5(Irq))), Store(Store(Store(mem, Stack(c.regs.s), Hi(c.pc)), Stack(c.regs.s - 1), Lo(c.pc)), Stack(c.regs.s - 2), StatusByte(c.regs.f, false)), Irq);
    VectorHighTick(Settle(c.(regs := c.regs.(s := c.regs.s - 3, f := c.regs.f.(i := true)), state := Int6(Irq, mem(VectorLo(Irq))))), Store(Store(Store(mem, Stack(c.regs.s), Hi(c.pc)), Stack(c.regs.s - 1), Lo(c.pc)), Stack(c.regs.s - 2), StatusByte(c.regs.f, false)), Irq, mem(VectorLo(Irq)));
    Chain6(Tick, c, mem, Rd(c.pc, mem(c.pc)), Settle(c.(state := Int2(Irq))), mem,
           Wr(Stack(c.regs.s), Hi(c.pc)), Settle(c.(regs := c.regs.(s := c.regs.s - 1), state := Int3(Irq))), Store(mem, Stack(c.regs.s), Hi(c.pc)),
           Wr(Stack(c.regs.s - 1), Lo(c.pc)), c.(regs := c.regs.(s := c.regs.s - 2), state := Int4(Irq, false)), Store(Store(mem, Stack(c.regs.s), Hi(c.pc)), Stack(c.regs.s - 1), Lo(c.pc)),
           Wr(Stack(c.regs.s - 2), StatusByte(c.regs.f, false)), Settle(c.(regs := c.regs.(s := c.regs.s - 3), state := Int5(Irq))), Store(Store(Store(mem, Stack(c.regs.s), Hi(c.pc)), Stack(c.regs.s - 1), Lo(c.pc)), Stack(c.regs.s - 2), StatusByte(c.regs.f, false)),
           Rd(VectorLo(Irq), mem(VectorLo(Irq))), Settle(c.(regs := c.regs.(s := c.regs.s - 3, f := c.regs.f.(i := true)), state := Int6(Irq, mem(VectorLo(Irq))))), Store(Store(Store(mem, Stack(c.regs.s), Hi(c.pc)), Stack(c.regs.s - 1), Lo(c.pc)), Stack(c.regs.s - 2), StatusByte(c.regs.f, false)),
           Rd(VectorHi(Irq), mem(VectorHi(Irq))), c.(pc := Word(mem(VectorHi(Irq)), mem(VectorLo(Irq))), regs := c.regs.(s := c.regs.s - 3, f := c.regs.f.(i := true)), state := FetchOpcode), Store(Store(Store(mem, Stack(c.regs.s), Hi(c.pc)), Stack(c.regs.s - 1), Lo(c.pc)), Stack(c.regs.s - 2), StatusByte(c.regs.f, false)));
  }

  /** Reset: two reads at PC, then three reads down the stack where an
      interrupt would write (S still drops by three), then the reset vector
      read with I set. Reset writes nothing. */
  lemma ResetSequence(c: Cpu, mem: Mem)
    requires c.state == Reset
    ensures Run(c, mem, 7) == Trace(Continue(Settle(c.(pc := Word(mem(0xFFFD), mem(0xFFFC)), regs := c.regs.(s := c.regs.s - 3, f := c.regs.f.(i := true)), state := FetchOpcode))), mem, [Rd(c.pc, mem(c.pc)), Rd(c.pc, mem(c.pc)), Rd(Stack(c.regs.s), mem(Stack(c.regs.s))), Rd(Stack(c.regs.s - 1), mem(Stack(c.regs.s - 1))), Rd(Stack(c.regs.s - 2), mem(Stack(c.regs.s - 2))), Rd(0xFFFC, mem(0xFFFC)), Rd(0xFFFD, mem(0xFFFD))])
  {
    ResetTick(c, mem);
    ResetStep2(c, mem);
    ResetStep3(c, mem);
    ResetStep4(c, mem);
    ResetStep5(c, mem);
    ResetStep6(c, mem);
    ResetStep7(c, mem);
    Chain7(Tick, c, mem, Rd(c.pc, mem(c.pc)), Settle(c.(state := Int(Rst))), mem, Rd(c.pc, mem(c.pc)), Settle(c.(state := Int2(Rst))), mem, Rd(Stack(c.regs.s), mem(Stack(c.regs.s))), Settle(c.(regs := c.regs.(s := c.regs.s - 1), state := Int3(Rst))), mem, Rd(Stack(c.regs.s - 1), mem(Stack(c.regs.s - 1))), Settle(c.(regs := c.regs.(s := c.regs.s - 2), state := Int4(Rst, false))), mem, Rd(Stack(c.regs.s - 2), mem(Stack(c.regs.s - 2))), Settle(c.(regs := c.regs.(s := c.regs.s - 3), state := Int5(Rst))), mem, Rd(0xFFFC, mem(0xFFFC)), Settle(c.(regs := c.regs.(s := c.regs.s - 3, f := c.regs.f.(i := true)), state := Int6(Rst, mem(0xFFFC)))), mem, Rd(0xFFFD, mem(0xFFFD)), Settle(c.(pc := Word(mem(0xFFFD), mem(0xFFFC)), regs := c.regs.(s := c.regs.s - 3, f := c.regs.f.(i := true)), state := FetchOpcode)), mem);
  }

  // The cycles of the page-crossing indexed accesses, each stated from the
  // CPU the access started with.

  lemma ReadCrossStep2(c: Cpu, mem: Mem, ro: ReadOp, addr: bv16, lowWord: bv16)
    ensures Tick(Settle(c.(state := FakeThenActual(OpRead(ro), Word(mem(addr), Lo(lowWord)), Word(mem(addr), Lo(lowWord)) + 0x100))), mem) == Cycled(Continue(Settle(c.(state := ExecuteOnAddress(OpRead(ro), Word(mem(addr), Lo(lowWord)) + 0x100, Hi(Word(mem(addr), Lo(lowWord))))))), mem, Rd(Word(mem(addr), Lo(lowWord)), mem(Word(mem(addr), Lo(lowWord)))))
  {
    FakeTick(Settle(c.(state := FakeThenActual(OpRead(ro), Word(mem(addr), Lo(lowWord)), Word(mem(addr), Lo(lowWord)) + 0x100))), mem, OpRead(ro), Word(mem(addr), Lo(lowWord)), Word(mem(addr), Lo(lowWord)) + 0x100);
  }

  lemma ReadCrossStep3(c: Cpu, mem: Mem, ro: ReadOp, addr: bv16, lowWord: bv16)
    ensures Tick(Settle(c.(state := ExecuteOnAddress(OpRead(ro), Word(mem(addr), Lo(lowWord)) + 0x100, Hi(Word(mem(addr), Lo(lowWord)))))), mem) == Cycled(Continue(Settle(c.(regs := ExecRead(ro, c.regs, mem(Word(mem(addr), Lo(lowWord)) + 0x100)), state := FetchOpcode))), mem, Rd(Word(mem(addr), Lo(lowWord)) + 0x100, mem(Word(mem(addr), Lo(lowWord)) + 0x100)))
  {
    ReadTick(Settle(c.(state := ExecuteOnAddress(OpRead(ro), Word(mem(addr), Lo(lowWord)) + 0x100, Hi(Word(mem(addr), Lo(lowWord)))))), mem, ro, Word(mem(addr), Lo(lowWord)) + 0x100, Hi(Word(mem(addr), Lo(lowWord))));
  }

  lemma WriteCrossStep2(c: Cpu, mem: Mem, w: WriteOp, addr: bv16, lowWord: bv16)
    ensures Tick(Settle(c.(state := FakeThenActual(OpWrite(w), Word(mem(addr), Lo(lowWord)), Word(mem(addr), Lo(lowWord)) + 0x100))), mem) == Cycled(Continue(Settle(c.(state := ExecuteOnAddress(OpWrite(w), Word(mem(addr), Lo(lowWord)) + 0x100, Hi(Word(mem(addr), Lo(lowWord))))))), mem, Rd(Word(mem(addr), Lo(lowWord)), mem(Word(mem(addr), Lo(lowWord)))))
  {
    FakeTick(Settle(c.(state := FakeThenActual(OpWrite(w), Word(mem(addr), Lo(lowWord)), Word(mem(addr), Lo(lowWord)) + 0x100))), mem, OpWrite(w), Word(mem(addr), Lo(lowWord)), Word(mem(addr), Lo(lowWord)) + 0x100);
  }

  lemma WriteCrossStep3(c: Cpu, mem: Mem, w: WriteOp, addr: bv16, lowWord: bv16)
    ensures Tick(Settle(c.(state := ExecuteOnAddress(OpWrite(w), Word(mem(addr), Lo(lowWord)) + 0x100, Hi(Word(mem(addr), Lo(lowWord)))))), mem) == Cycled(Continue(Settle(c.(state := FetchOpcode))), Store(mem, Word(mem(addr), Lo(lowWord)) + 0x100, ExecWrite(w, c.regs)), Wr(Word(mem(addr), Lo(lowWord)) + 0x100, ExecWrite(w, c.regs)))
  {
    WriteTick(Settle(c.(state := ExecuteOnAddress(OpWrite(w), Word(mem(addr), Lo(lowWord)) + 0x100, Hi(Word(mem(addr), Lo(lowWord)))))), mem, w, Word(mem(addr), Lo(lowWord)) + 0x100, Hi(Word(mem(addr), Lo(lowWord))));
  }

  // The cycles of the stack instruction and subroutine sequences, each
  // stated from the CPU the sequence started with.

  lemma PlpStep2(c: Cpu, mem: Mem)
    ensures Tick(Settle(c.(state := PLP2)), mem) == Cycled(Continue(Settle(c.(state := PLP3))), mem, Rd(Stack(c.regs.s), mem(Stack(c.regs.s))))
  {
    PlpDummyTick(Settle(c.(state := PLP2)), mem);
  }

  lemma PlpStep3(c: Cpu, mem: Mem)
    ensures Tick(Settle(c.(state := PLP3)), mem) == Cycled(Continue(Settle(c.(regs := c.regs.(s := c.regs.s + 1, f := PulledFlags(mem(Stack(c.regs.s + 1)))), state := FetchOpcode))), mem, Rd(Stack(c.regs.s + 1), mem(Stack(c.regs.s + 1))))
  {
    PlpPullTick(Settle(c.(state := PLP3)), mem, Stack(c.regs.s + 1));
  }

  lemma PlaStep2(c: Cpu, mem: Mem)
    ensures Tick(Settle(c.(state := PLA2)), mem) == Cycled(Continue(Settle(c.(state := PLA3))), mem, Rd(Stack(c.regs.s), mem(Stack(c.regs.s))))
  {
    PlaDummyTick(Settle(c.(state := PLA2)), mem);
  }

  lemma PlaStep3(c: Cpu, mem: Mem)
    ensures Tick(Settle(c.(state := PLA3)), mem) == Cycled(Continue(Settle(c.(regs := SetZN(c.regs.(s := c.regs.s + 1), mem(Stack(c.regs.s + 1))).(a := mem(Stack(c.regs.s + 1))), state := FetchOpcode))), mem, Rd(Stack(c.regs.s + 1), mem(Stack(c.regs.s + 1))))
  {
    PlaPullTick(Settle(c.(state := PLA3)), mem);
  }

  lemma JsrStep2(c: Cpu, mem: Mem)
    ensures Tick(Settle(c.(pc := c.pc + 1, state := JSR2(mem(c.pc)))), mem) == Cycled(Continue(Settle(c.(pc := c.pc + 1, state := JSR3(mem(c.pc))))), mem, Rd(Stack(c.regs.s), mem(Stack(c.regs.s))))
  {
    JsrDummyTick(Settle(c.(pc := c.pc + 1, state := JSR2(mem(c.pc)))), mem, mem(c.pc));
  }

  lemma JsrStep3(c: Cpu, mem: Mem)
    ensures Tick(Settle(c.(pc := c.pc + 1, state := JSR3(mem(c.pc)))), mem) == Cycled(Continue(Settle(c.(pc := c.pc + 1, regs := c.regs.(s := c.regs.s - 1), state := JSR4(mem(c.pc))))), Store(mem, Stack(c.regs.s), Hi(c.pc + 1)), Wr(Stack(c.regs.s), Hi(c.pc + 1)))
  {
    JsrPushHighTick(Settle(c.(pc := c.pc + 1, state := JSR3(mem(c.pc)))), mem, mem(c.pc));
  }

  lemma JsrStep4(c: Cpu, mem: Mem)
    ensures Tick(Settle(c.(pc := c.pc + 1, regs := c.regs.(s := c.regs.s - 1), state := JSR4(mem(c.pc)))), Store(mem, Stack(c.regs.s), Hi(c.pc + 1))) == Cycled(Continue(Settle(c.(pc := c.pc + 1, regs := c.regs.(s := c.regs.s - 2), state := JSR5(mem(c.pc))))), Store(Store(mem, Stack(c.regs.s), Hi(c.pc + 1)), Stack(c.regs.s - 1), Lo(c.pc + 1)), Wr(Stack(c.regs.s - 1), Lo(c.pc + 1)))
  {
    JsrPushLowTick(Settle(c.(pc := c.pc + 1, regs := c.regs.(s := c.regs.s - 1), state := JSR4(mem(c.pc)))), Store(mem, Stack(c.regs.s), Hi(c.pc + 1)), mem(c.pc));
  }

  lemma JsrStep5(c: Cpu, mem: Mem)
    ensures Tick(Settle(c.(pc := c.pc + 1, regs := c.regs.(s := c.regs.s - 2), state := JSR5(mem(c.pc)))), Store(Store(mem, Stack(c.regs.s), Hi(c.pc + 1)), Stack(c.regs.s - 1), Lo(c.pc + 1))) == Cycled(Continue(Settle(c.(pc := Word(Store(Store(mem, Stack(c.regs.s), Hi(c.pc + 1)), Stack(c.regs.s - 1), Lo(c.pc + 1))(c.pc + 1), mem(c.pc)), regs := c.regs.(s := c.regs.s - 2), state := FetchOpcode))), Store(Store(mem, Stack(c.regs.s), Hi(c.pc + 1)), Stack(c.regs.s - 1), Lo(c.pc + 1)), Rd(c.pc + 1, Store(Store(mem, Stack(c.regs.s), Hi(c.pc + 1)), Stack(c.regs.s - 1), Lo(c.pc + 1))(c.pc + 1)))
  {
    JsrHighTick(Settle(c.(pc := c.pc + 1, regs := c.regs.(s := c.regs.s - 2), state := JSR5(mem(c.pc)))), Store(Store(mem, Stack(c.regs.s), Hi(c.pc + 1)), Stack(c.regs.s - 1), Lo(c.pc + 1)), mem(c.pc));
  }

  lemma RtsStep2(c: Cpu, mem: Mem)
    ensures Tick(Settle(c.(state := RTS2)), mem) == Cycled(Continue(Settle(c.(regs := c.regs.(s := c.regs.s + 1), state := RTS3))), mem, Rd(Stack(c.regs.s), mem(Stack(c.regs.s))))
  {
    RtsDummyTick(Settle(c.(state := RTS2)), mem);
  }

  lemma RtsStep3(c: Cpu, mem: Mem)
    ensures Tick(Settle(c.(regs := c.regs.(s := c.regs.s + 1), state := RTS3)), mem) == Cycled(Continue(Settle(c.(regs := c.regs.(s := c.regs.s + 2), state := RTS4(mem(Stack(c.regs.s + 1)))))), mem, Rd(Stack(c.regs.s + 1), mem(Stack(c.regs.s + 1))))
  {
    RtsLowTick(Settle(c.(regs := c.regs.(s := c.regs.s + 1), state := RTS3)), mem);
  }

  lemma RtsStep4(c: Cpu, mem: Mem)
    ensures Tick(Settle(c.(regs := c.regs.(s := c.regs.s + 2), state := RTS4(mem(Stack(c.regs.s + 1))))), mem) == Cycled(Continue(Settle(c.(pc := Word(mem(Stack(c.regs.s + 2)), mem(Stack(c.regs.s + 1))), regs := c.regs.(s := c.regs.s + 2), state := RTS5))), mem, Rd(Stack(c.regs.s + 2), mem(Stack(c.regs.s + 2))))
  {
    StackStep(c.regs.s);
    RtsHighTick(Settle(c.(regs := c.regs.(s := c.regs.s + 2), state := RTS4(mem(Stack(c.regs.s + 1))))), mem, mem(Stack(c.regs.s + 1)));
  }

  lemma RtsStep5(c: Cpu, mem: Mem)
    ensures Tick(Settle(c.(pc := Word(mem(Stack(c.regs.s + 2)), mem(Stack(c.regs.s + 1))), regs := c.regs.(s := c.regs.s + 2), state := RTS5)), mem) == Cycled(Continue(Settle(c.(pc := Word(mem(Stack(c.regs.s + 2)), mem(Stack(c.regs.s + 1))) + 1, regs := c.regs.(s := c.regs.s + 2), state := FetchOpcode))), mem, Rd(Word(mem(Stack(c.regs.s + 2)), mem(Stack(c.regs.s + 1))), mem(Word(mem(Stack(c.regs.s + 2)), mem(Stack(c.regs.s + 1))))))
  {
    RtsSkipTick(Settle(c.(pc := Word(mem(Stack(c.regs.s + 2)), mem(Stack(c.regs.s + 1))), regs := c.regs.(s := c.regs.s + 2), state := RTS5)), mem);
  }

  // The cycles of the reset sequence, each stated from the CPU the sequence
  // started with.

  lemma ResetStep2(c: Cpu, mem: Mem)
    ensures Tick(Settle(c.(state := Int(Rst))), mem) == Cycled(Continue(Settle(c.(state := Int2(Rst)))), mem, Rd(c.pc, mem(c.pc)))
  {
    IntTick(Settle(c.(state := Int(Rst))), mem, Rst);
  }

  lemma ResetStep3(c: Cpu, mem: Mem)
    ensures Tick(Settle(c.(state := Int2(Rst))), mem) == Cycled(Continue(Settle(c.(regs := c.regs.(s := c.regs.s - 1), state := Int3(Rst)))), mem, Rd(Stack(c.regs.s), mem(Stack(c.regs.s))))
  {
    ResetHighTick(Settle(c.(state := Int2(Rst))), mem);
  }

  lemma ResetStep4(c: Cpu, mem: Mem)
    ensures Tick(Settle(c.(regs := c.regs.(s := c.regs.s - 1), state := Int3(Rst))), mem) == Cycled(Continue(Settle(c.(regs := c.regs.(s := c.regs.s - 2), state := Int4(Rst, false)))), mem, Rd(Stack(c.regs.s - 1), mem(Stack(c.regs.s - 1))))
  {
    ResetLowTick(Settle(c.(regs := c.regs.(s := c.regs.s - 1), state := Int3(Rst))), mem);
  }

  lemma ResetStep5(c: Cpu, mem: Mem)
    ensures Tick(Settle(c.(regs := c.regs.(s := c.regs.s - 2), state := Int4(Rst, false))), mem) == Cycled(Continue(Settle(c.(regs := c.regs.(s := c.regs.s - 3), state := Int5(Rst)))), mem, Rd(Stack(c.regs.s - 2), mem(Stack(c.regs.s - 2))))
  {
    ResetStatusTick(Settle(c.(regs := c.regs.(s := c.regs.s - 2), state := Int4(Rst, false))), mem);
  }

  lemma ResetStep6(c: Cpu, mem: Mem)
    ensures Tick(Settle(c.(regs := c.regs.(s := c.regs.s - 3), state := Int5(Rst))), mem) == Cycled(Continue(Settle(c.(regs := c.regs.(s := c.regs.s - 3, f := c.regs.f.(i := true)), state := Int6(Rst, mem(0xFFFC))))), mem, Rd(0xFFFC, mem(0xFFFC)))
  {
    VectorLowTick(Settle(c.(regs := c.regs.(s := c.regs.s - 3), state := Int5(Rst))), mem, Rst);
  }

  lemma ResetStep7(c: Cpu, mem: Mem)
    ensures Tick(Settle(c.(regs := c.regs.(s := c.regs.s - 3, f := c.regs.f.(i := true)), state := Int6(Rst, mem(0xFFFC)))), mem) == Cycled(Continue(Settle(c.(pc := Word(mem(0xFFFD), mem(0xFFFC)), regs := c.regs.(s := c.regs.s - 3, f := c.regs.f.(i := true)), state := FetchOpcode))), mem, Rd(0xFFFD, mem(0xFFFD)))
  {
    VectorHighTick(Settle(c.(regs := c.regs.(s := c.regs.s - 3, f := c.regs.f.(i := true)), state := Int6(Rst, mem(0xFFFC)))), mem, Rst, mem(0xFFFC));
  }
}
