/** One cycle of the covnes CPU (covnes/src/cpu.rs) against flat memory,
    for each state an instruction-level trace passes through: the bus event
    of the cycle, the memory after it and the CPU it leads to. */
module CpuSteps {
  import opened Common
  import opened Alu
  import opened Cpu6502
  import opened CpuTrace
  import opened CpuCycles

  // Addressing.

  lemma ReadCarryTick(c: Cpu, mem: Mem, ro: ReadOp, addr: bv16, lowWord: bv16)
    requires c.state == AddLowHigh(OpRead(ro), addr, lowWord) && lowWord > 0xFF
    ensures Tick(c, mem) == Cycled(Continue(Settle(c.(state := FakeThenActual(OpRead(ro), Word(mem(addr), Lo(lowWord)), Word(mem(addr), Lo(lowWord)) + 0x100)))), mem, Rd(addr, mem(addr)))
  {
    AddLowHighReadCarry(c, mem(addr), ro, addr, lowWord);
    AddressingKeepsPcAndRegs(c, mem(addr));
    TickRead(c, mem, addr, Settle(c.(state := FakeThenActual(OpRead(ro), Word(mem(addr), Lo(lowWord)), Word(mem(addr), Lo(lowWord)) + 0x100))));
  }

  lemma ReadNoCarryTick(c: Cpu, mem: Mem, ro: ReadOp, addr: bv16, lowWord: bv16)
    requires c.state == AddLowHigh(OpRead(ro), addr, lowWord) && lowWord <= 0xFF
    ensures Tick(c, mem) == Cycled(Continue(Settle(c.(state := ExecuteOnAddress(OpRead(ro), Word(mem(addr), Lo(lowWord)), mem(addr))))), mem, Rd(addr, mem(addr)))
  {
    AddLowHighReadNoCarry(c, mem(addr), ro, addr, lowWord);
    AddressingKeepsPcAndRegs(c, mem(addr));
    TickRead(c, mem, addr, Settle(c.(state := ExecuteOnAddress(OpRead(ro), Word(mem(addr), Lo(lowWord)), mem(addr)))));
  }

  lemma WriteCarryTick(c: Cpu, mem: Mem, w: WriteOp, addr: bv16, lowWord: bv16)
    requires c.state == AddLowHigh(OpWrite(w), addr, lowWord) && lowWord > 0xFF
    ensures Tick(c, mem) == Cycled(Continue(Settle(c.(state := FakeThenActual(OpWrite(w), Word(mem(addr), Lo(lowWord)), Word(mem(addr), Lo(lowWord)) + 0x100)))), mem, Rd(addr, mem(addr)))
  {
    AddLowHighWriteCarry(c, mem(addr), w, addr, lowWord);
    AddressingKeepsPcAndRegs(c, mem(addr));
    TickRead(c, mem, addr, Settle(c.(state := FakeThenActual(OpWrite(w), Word(mem(addr), Lo(lowWord)), Word(mem(addr), Lo(lowWord)) + 0x100))));
  }

  lemma WriteNoCarryTick(c: Cpu, mem: Mem, w: WriteOp, addr: bv16, lowWord: bv16)
    requires c.state == AddLowHigh(OpWrite(w), addr, lowWord) && lowWord <= 0xFF
    ensures Tick(c, mem) == Cycled(Continue(Settle(c.(state := FakeThenActual(OpWrite(w), Word(mem(addr), Lo(lowWord)), Word(mem(addr), Lo(lowWord)))))), mem, Rd(addr, mem(addr)))
  {
    AddLowHighWriteNoCarry(c, mem(addr), w, addr, lowWord);
    AddressingKeepsPcAndRegs(c, mem(addr));
    TickRead(c, mem, addr, Settle(c.(state := FakeThenActual(OpWrite(w), Word(mem(addr), Lo(lowWord)), Word(mem(addr), Lo(lowWord))))));
  }

  lemma FakeTick(c: Cpu, mem: Mem, op: Op, fake: bv16, addr: bv16)
    requires c.state == FakeThenActual(op, fake, addr)
    ensures Tick(c, mem) == Cycled(Continue(Settle(c.(state := ExecuteOnAddress(op, addr, Hi(fake))))), mem, Rd(fake, mem(fake)))
  {
    FakeThenActualCycle(c, mem(fake), op, fake, addr);
    AddressingKeepsPcAndRegs(c, mem(fake));
    TickRead(c, mem, fake, Settle(c.(state := ExecuteOnAddress(op, addr, Hi(fake)))));
  }

  lemma ReadTick(c: Cpu, mem: Mem, ro: ReadOp, addr: bv16, h: bv8)
    requires c.state == ExecuteOnAddress(OpRead(ro), addr, h)
    ensures Tick(c, mem) == Cycled(Continue(Settle(c.(regs := ExecRead(ro, c.regs, mem(addr)), state := FetchOpcode))), mem, Rd(addr, mem(addr)))
  {
    ExecuteReadCycle(c, mem(addr), ro, addr, h);
    TickRead(c, mem, addr, Settle(c.(regs := ExecRead(ro, c.regs, mem(addr)), state := FetchOpcode)));
  }

  lemma WriteTick(c: Cpu, mem: Mem, w: WriteOp, addr: bv16, h: bv8)
    requires c.state == ExecuteOnAddress(OpWrite(w), addr, h)
    ensures Tick(c, mem) == Cycled(Continue(Settle(c.(state := FetchOpcode))), Store(mem, addr, ExecWrite(w, c.regs)), Wr(addr, ExecWrite(w, c.regs)))
  {
    ExecuteWriteCycle(c, 0, w, addr, h);
    TickWrite(c, mem, addr, ExecWrite(w, c.regs), Settle(c.(state := FetchOpcode)));
  }

  lemma RmwReadTick(c: Cpu, mem: Mem, rw: ReadWriteOp, addr: bv16, h: bv8)
    requires c.state == ExecuteOnAddress(OpReadWrite(rw), addr, h)
    ensures var w := ExecRmw(rw, c.regs, mem(addr));
            Tick(c, mem) == Cycled(Continue(Settle(c.(regs := w.regs, state := WriteBackThenWrite(addr, mem(addr), w.value)))), mem, Rd(addr, mem(addr)))
  {
    var w := ExecRmw(rw, c.regs, mem(addr));
    ExecuteReadWriteCycle(c, mem(addr), rw, addr, h);
    TickRead(c, mem, addr, Settle(c.(regs := w.regs, state := WriteBackThenWrite(addr, mem(addr), w.value))));
  }

  lemma WriteBackTick(c: Cpu, mem: Mem, addr: bv16, original: bv8, modified: bv8)
    requires c.state == WriteBackThenWrite(addr, original, modified)
    ensures Tick(c, mem) == Cycled(Continue(Settle(c.(state := WriteValue(addr, modified)))), Store(mem, addr, original), Wr(addr, original))
  {
    WriteBackCycle(c, 0, addr, original, modified);
    TickWrite(c, mem, addr, original, Settle(c.(state := WriteValue(addr, modified))));
  }

  lemma WriteValueTick(c: Cpu, mem: Mem, addr: bv16, v: bv8)
    requires c.state == WriteValue(addr, v)
    ensures Tick(c, mem) == Cycled(Continue(Settle(c.(state := FetchOpcode))), Store(mem, addr, v), Wr(addr, v))
  {
    WriteValueCycle(c, 0, addr, v);
    TickWrite(c, mem, addr, v, Settle(c.(state := FetchOpcode)));
  }

  // Branches.

  lemma NotTakenTick(c: Cpu, mem: Mem, bo: BranchOp)
    requires c.state == Relative(bo) && !Taken(bo, c.regs)
    ensures Tick(c, mem) == Cycled(Continue(Settle(c.(pc := c.pc + 1, state := FetchOpcode))), mem, Rd(c.pc, mem(c.pc)))
  {
    BranchNotTakenCycle(c, mem(c.pc), bo);
    TickRead(c, mem, c.pc, Settle(c.(pc := c.pc + 1, state := FetchOpcode)));
  }

  lemma TakenTick(c: Cpu, mem: Mem, bo: BranchOp)
    requires c.state == Relative(bo) && Taken(bo, c.regs)
    ensures Tick(c, mem) == Cycled(Continue(Settle(c.(pc := c.pc + 1, state := Relative2(mem(c.pc))))), mem, Rd(c.pc, mem(c.pc)))
  {
    BranchTakenCycle(c, mem(c.pc), bo);
    TickRead(c, mem, c.pc, Settle(c.(pc := c.pc + 1, state := Relative2(mem(c.pc)))));
  }

  lemma SamePageTick(c: Cpu, mem: Mem, offset: bv8)
    requires c.state == Relative2(offset) && Hi(c.pc) == Hi(BranchTarget(c.pc, offset))
    ensures Tick(c, mem) == Cycled(Continue(Settle(c.(pc := BranchTarget(c.pc, offset), state := FetchOpcode))), mem, Idle)
  {
    BranchSamePageCycle(c, 0, offset);
    TickIdle(c, mem, Settle(c.(pc := BranchTarget(c.pc, offset), state := FetchOpcode)));
  }

  lemma CrossPageTick(c: Cpu, mem: Mem, offset: bv8)
    requires c.state == Relative2(offset) && Hi(c.pc) != Hi(BranchTarget(c.pc, offset))
    ensures Tick(c, mem)
            == Cycled(Continue(Settle(c.(pc := BranchTarget(c.pc, offset),
                                         state := Relative3(BranchFixupAddress(c.pc, BranchTarget(c.pc, offset)))))), mem, Idle)
  {
    BranchCrossPageCycle(c, 0, offset);
    TickIdle(c, mem, Settle(c.(pc := BranchTarget(c.pc, offset), state := Relative3(BranchFixupAddress(c.pc, BranchTarget(c.pc, offset))))));
  }

  lemma FixupTick(c: Cpu, mem: Mem, addr: bv16)
    requires c.state == Relative3(addr)
    ensures Tick(c, mem) == Cycled(Continue(Settle(c.(state := FetchOpcode))), mem, Rd(addr, mem(addr)))
  {
    BranchFixupCycle(c, mem(addr), addr);
    TickRead(c, mem, addr, Settle(c.(state := FetchOpcode)));
  }

  // Interrupts and reset.

  lemma ResetTick(c: Cpu, mem: Mem)
    requires c.state == Reset
    ensures Tick(c, mem) == Cycled(Continue(Settle(c.(state := Int(Rst)))), mem, Rd(c.pc, mem(c.pc)))
  {
    ResetCycle(c, mem(c.pc));
    TickRead(c, mem, c.pc, Settle(c.(state := Int(Rst))));
  }

  lemma IntBrkTick(c: Cpu, mem: Mem)
    requires c.state == Int(Brk)
    ensures Tick(c, mem) == Cycled(Continue(Settle(c.(pc := c.pc + 1, state := Int2(Brk)))), mem, Rd(c.pc + 1, mem(c.pc + 1)))
  {
    IntBrkCycle(c, mem(c.pc + 1));
    TickRead(c, mem, c.pc + 1, Settle(c.(pc := c.pc + 1, state := Int2(Brk))));
  }

  lemma IntTick(c: Cpu, mem: Mem, i: Interrupt)
    requires c.state == Int(i) && i != Brk
    ensures Tick(c, mem) == Cycled(Continue(Settle(c.(state := Int2(i)))), mem, Rd(c.pc, mem(c.pc)))
  {
    IntCycle(c, mem(c.pc), i);
    TickRead(c, mem, c.pc, Settle(c.(state := Int2(i))));
  }

  lemma PushPcHighTick(c: Cpu, mem: Mem, i: Interrupt)
    requires c.state == Int2(i) && i != Rst
    ensures Tick(c, mem) == Cycled(Continue(Settle(c.(regs := c.regs.(s := c.regs.s - 1), state := Int3(i)))), Store(mem, Stack(c.regs.s), Hi(c.pc)), Wr(Stack(c.regs.s), Hi(c.pc)))
  {
    PushPcHighCycle(c, 0, i);
    TickWrite(c, mem, Stack(c.regs.s), Hi(c.pc), Settle(c.(regs := c.regs.(s := c.regs.s - 1), state := Int3(i))));
  }

  lemma PushPcLowTick(c: Cpu, mem: Mem, i: Interrupt)
    requires c.state == Int3(i) && i != Rst && c.nmi == Clear && c.irq == Clear
    ensures Tick(c, mem) == Cycled(Continue(c.(regs := c.regs.(s := c.regs.s - 1), state := Int4(i, i == Brk))), Store(mem, Stack(c.regs.s), Lo(c.pc)), Wr(Stack(c.regs.s), Lo(c.pc)))
  {
    PushPcLowCycle(c, 0, i);
    TickWrite(c, mem, Stack(c.regs.s), Lo(c.pc), c.(regs := c.regs.(s := c.regs.s - 1), state := Int4(i, i == Brk)));
  }

  lemma PushStatusTick(c: Cpu, mem: Mem, i: Interrupt, b: bool)
    requires c.state == Int4(i, b) && i != Rst
    ensures Tick(c, mem) == Cycled(Continue(Settle(c.(regs := c.regs.(s := c.regs.s - 1), state := Int5(i)))),
                                   Store(mem, Stack(c.regs.s), StatusByte(c.regs.f, b)), Wr(Stack(c.regs.s), StatusByte(c.regs.f, b)))
  {
    PushStatusCycle(c, 0, i, b);
    TickWrite(c, mem, Stack(c.regs.s), StatusByte(c.regs.f, b), Settle(c.(regs := c.regs.(s := c.regs.s - 1), state := Int5(i))));
  }

  lemma ResetHighTick(c: Cpu, mem: Mem)
    requires c.state == Int2(Rst)
    ensures Tick(c, mem) == Cycled(Continue(Settle(c.(regs := c.regs.(s := c.regs.s - 1), state := Int3(Rst)))), mem, Rd(Stack(c.regs.s), mem(Stack(c.regs.s))))
  {
    ResetStackHighCycle(c, mem(Stack(c.regs.s)));
    TickRead(c, mem, Stack(c.regs.s), Settle(c.(regs := c.regs.(s := c.regs.s - 1), state := Int3(Rst))));
  }

  lemma ResetLowTick(c: Cpu, mem: Mem)
    requires c.state == Int3(Rst)
    ensures Tick(c, mem) == Cycled(Continue(Settle(c.(regs := c.regs.(s := c.regs.s - 1), state := Int4(Rst, false)))), mem, Rd(Stack(c.regs.s), mem(Stack(c.regs.s))))
  {
    ResetStackLowCycle(c, mem(Stack(c.regs.s)));
    TickRead(c, mem, Stack(c.regs.s), Settle(c.(regs := c.regs.(s := c.regs.s - 1), state := Int4(Rst, false))));
  }

  lemma ResetStatusTick(c: Cpu, mem: Mem)
    requires c.state == Int4(Rst, false)
    ensures Tick(c, mem) == Cycled(Continue(Settle(c.(regs := c.regs.(s := c.regs.s - 1), state := Int5(Rst)))), mem, Rd(Stack(c.regs.s), mem(Stack(c.regs.s))))
  {
    ResetStackStatusCycle(c, mem(Stack(c.regs.s)), false);
    TickRead(c, mem, Stack(c.regs.s), Settle(c.(regs := c.regs.(s := c.regs.s - 1), state := Int5(Rst))));
  }

  lemma VectorLowTick(c: Cpu, mem: Mem, i: Interrupt)
    requires c.state == Int5(i)
    ensures Tick(c, mem) == Cycled(Continue(Settle(c.(regs := c.regs.(f := c.regs.f.(i := true)), state := Int6(i, mem(VectorLo(i)))))), mem, Rd(VectorLo(i), mem(VectorLo(i))))
  {
    VectorLowCycle(c, mem(VectorLo(i)), i);
    TickRead(c, mem, VectorLo(i), Settle(c.(regs := c.regs.(f := c.regs.f.(i := true)), state := Int6(i, mem(VectorLo(i))))));
  }

  lemma VectorHighTick(c: Cpu, mem: Mem, i: Interrupt, low: bv8)
    requires c.state == Int6(i, low)
    ensures Tick(c, mem) == Cycled(Continue(Settle(c.(pc := Word(mem(VectorHi(i)), low), state := FetchOpcode))), mem, Rd(VectorHi(i), mem(VectorHi(i))))
  {
    VectorHighCycle(c, mem(VectorHi(i)), i, low);
    TickRead(c, mem, VectorHi(i), Settle(c.(pc := Word(mem(VectorHi(i)), low), state := FetchOpcode)));
  }

  // Stack instructions.

  lemma PhpTick(c: Cpu, mem: Mem)
    requires c.state == PHP
    ensures Tick(c, mem) == Cycled(Continue(Settle(c.(state := PHPA(StatusByte(c.regs.f, true))))), mem, Idle)
  {
    PhpCycle(c, 0);
    TickIdle(c, mem, Settle(c.(state := PHPA(StatusByte(c.regs.f, true)))));
  }

  lemma PhaTick(c: Cpu, mem: Mem)
    requires c.state == PHA
    ensures Tick(c, mem) == Cycled(Continue(Settle(c.(state := PHPA(c.regs.a)))), mem, Idle)
  {
    PhaCycle(c, 0);
    TickIdle(c, mem, Settle(c.(state := PHPA(c.regs.a))));
  }

  lemma PushTick(c: Cpu, mem: Mem, v: bv8)
    requires c.state == PHPA(v)
    ensures Tick(c, mem) == Cycled(Continue(Settle(c.(regs := c.regs.(s := c.regs.s - 1), state := FetchOpcode))), Store(mem, Stack(c.regs.s), v), Wr(Stack(c.regs.s), v))
  {
    PushCycle(c, 0, v);
    TickWrite(c, mem, Stack(c.regs.s), v, Settle(c.(regs := c.regs.(s := c.regs.s - 1), state := FetchOpcode)));
  }

  lemma PlpStartTick(c: Cpu, mem: Mem)
    requires c.state == PLP
    ensures Tick(c, mem) == Cycled(Continue(Settle(c.(state := PLP2))), mem, Idle)
  {
    PlpStartCycle(c, 0);
    TickIdle(c, mem, Settle(c.(state := PLP2)));
  }

  lemma PlpDummyTick(c: Cpu, mem: Mem)
    requires c.state == PLP2
    ensures Tick(c, mem) == Cycled(Continue(Settle(c.(state := PLP3))), mem, Rd(Stack(c.regs.s), mem(Stack(c.regs.s))))
  {
    PlpDummyCycle(c, mem(Stack(c.regs.s)));
    TickRead(c, mem, Stack(c.regs.s), Settle(c.(state := PLP3)));
  }

  lemma PlpPullTick(c: Cpu, mem: Mem, top: bv16)
    requires c.state == PLP3 && top == Stack(c.regs.s + 1)
    ensures Tick(c, mem) == Cycled(Continue(Settle(c.(regs := c.regs.(s := c.regs.s + 1, f := PulledFlags(mem(top))), state := FetchOpcode))), mem, Rd(top, mem(top)))
  {
    PlpCycle(c, mem(top));
    TickRead(c, mem, top, Settle(c.(regs := c.regs.(s := c.regs.s + 1, f := PulledFlags(mem(top))), state := FetchOpcode)));
  }

  lemma PlaStartTick(c: Cpu, mem: Mem)
    requires c.state == PLA
    ensures Tick(c, mem) == Cycled(Continue(Settle(c.(state := PLA2))), mem, Idle)
  {
    PlaStartCycle(c, 0);
    TickIdle(c, mem, Settle(c.(state := PLA2)));
  }

  lemma PlaDummyTick(c: Cpu, mem: Mem)
    requires c.state == PLA2
    ensures Tick(c, mem) == Cycled(Continue(Settle(c.(state := PLA3))), mem, Rd(Stack(c.regs.s), mem(Stack(c.regs.s))))
  {
    PlaDummyCycle(c, mem(Stack(c.regs.s)));
    TickRead(c, mem, Stack(c.regs.s), Settle(c.(state := PLA3)));
  }

  lemma PlaPullTick(c: Cpu, mem: Mem)
    requires c.state == PLA3
    ensures Tick(c, mem) == Cycled(Continue(Settle(c.(regs := SetZN(c.regs.(s := c.regs.s + 1), mem(Stack(c.regs.s + 1))).(a := mem(Stack(c.regs.s + 1))), state := FetchOpcode))),
                                   mem, Rd(Stack(c.regs.s + 1), mem(Stack(c.regs.s + 1))))
  {
    PlaCycle(c, mem(Stack(c.regs.s + 1)));
    TickRead(c, mem, Stack(c.regs.s + 1), Settle(c.(regs := SetZN(c.regs.(s := c.regs.s + 1), mem(Stack(c.regs.s + 1))).(a := mem(Stack(c.regs.s + 1))), state := FetchOpcode)));
  }

  lemma JsrLowTick(c: Cpu, mem: Mem)
    requires c.state == JSR
    ensures Tick(c, mem) == Cycled(Continue(Settle(c.(pc := c.pc + 1, state := JSR2(mem(c.pc))))), mem, Rd(c.pc, mem(c.pc)))
  {
    JsrLowCycle(c, mem(c.pc));
    TickRead(c, mem, c.pc, Settle(c.(pc := c.pc + 1, state := JSR2(mem(c.pc)))));
  }

  lemma JsrDummyTick(c: Cpu, mem: Mem, low: bv8)
    requires c.state == JSR2(low)
    ensures Tick(c, mem) == Cycled(Continue(Settle(c.(state := JSR3(low)))), mem, Rd(Stack(c.regs.s), mem(Stack(c.regs.s))))
  {
    JsrDummyCycle(c, mem(Stack(c.regs.s)), low);
    TickRead(c, mem, Stack(c.regs.s), Settle(c.(state := JSR3(low))));
  }

  lemma JsrPushHighTick(c: Cpu, mem: Mem, low: bv8)
    requires c.state == JSR3(low)
    ensures Tick(c, mem) == Cycled(Continue(Settle(c.(regs := c.regs.(s := c.regs.s - 1), state := JSR4(low)))), Store(mem, Stack(c.regs.s), Hi(c.pc)), Wr(Stack(c.regs.s), Hi(c.pc)))
  {
    JsrPushHighCycle(c, 0, low);
    TickWrite(c, mem, Stack(c.regs.s), Hi(c.pc), Settle(c.(regs := c.regs.(s := c.regs.s - 1), state := JSR4(low))));
  }

  lemma JsrPushLowTick(c: Cpu, mem: Mem, low: bv8)
    requires c.state == JSR4(low)
    ensures Tick(c, mem) == Cycled(Continue(Settle(c.(regs := c.regs.(s := c.regs.s - 1), state := JSR5(low)))), Store(mem, Stack(c.regs.s), Lo(c.pc)), Wr(Stack(c.regs.s), Lo(c.pc)))
  {
    JsrPushLowCycle(c, 0, low);
    TickWrite(c, mem, Stack(c.regs.s), Lo(c.pc), Settle(c.(regs := c.regs.(s := c.regs.s - 1), state := JSR5(low))));
  }

  lemma JsrHighTick(c: Cpu, mem: Mem, low: bv8)
    requires c.state == JSR5(low)
    ensures Tick(c, mem) == Cycled(Continue(Settle(c.(pc := Word(mem(c.pc), low), state := FetchOpcode))), mem, Rd(c.pc, mem(c.pc)))
  {
    JsrHighCycle(c, mem(c.pc), low);
    TickRead(c, mem, c.pc, Settle(c.(pc := Word(mem(c.pc), low), state := FetchOpcode)));
  }

  lemma RtsStartTick(c: Cpu, mem: Mem)
    requires c.state == RTS
    ensures Tick(c, mem) == Cycled(Continue(Settle(c.(state := RTS2))), mem, Idle)
  {
    RtsStartCycle(c, 0);
    TickIdle(c, mem, Settle(c.(state := RTS2)));
  }

  lemma RtsDummyTick(c: Cpu, mem: Mem)
    requires c.state == RTS2
    ensures Tick(c, mem) == Cycled(Continue(Settle(c.(regs := c.regs.(s := c.regs.s + 1), state := RTS3))), mem, Rd(Stack(c.regs.s), mem(Stack(c.regs.s))))
  {
    RtsDummyCycle(c, mem(Stack(c.regs.s)));
    TickRead(c, mem, Stack(c.regs.s), Settle(c.(regs := c.regs.(s := c.regs.s + 1), state := RTS3)));
  }

  lemma RtsLowTick(c: Cpu, mem: Mem)
    requires c.state == RTS3
    ensures Tick(c, mem) == Cycled(Continue(Settle(c.(regs := c.regs.(s := c.regs.s + 1), state := RTS4(mem(Stack(c.regs.s)))))), mem, Rd(Stack(c.regs.s), mem(Stack(c.regs.s))))
  {
    RtsLowCycle(c, mem(Stack(c.regs.s)));
    TickRead(c, mem, Stack(c.regs.s), Settle(c.(regs := c.regs.(s := c.regs.s + 1), state := RTS4(mem(Stack(c.regs.s))))));
  }

  lemma RtsHighTick(c: Cpu, mem: Mem, low: bv8)
    requires c.state == RTS4(low)
    ensures Tick(c, mem) == Cycled(Continue(Settle(c.(pc := Word(mem(Stack(c.regs.s)), low), state := RTS5))), mem, Rd(Stack(c.regs.s), mem(Stack(c.regs.s))))
  {
    RtsHighCycle(c, mem(Stack(c.regs.s)), low);
    TickRead(c, mem, Stack(c.regs.s), Settle(c.(pc := Word(mem(Stack(c.regs.s)), low), state := RTS5)));
  }

  lemma RtsSkipTick(c: Cpu, mem: Mem)
    requires c.state == RTS5
    ensures Tick(c, mem) == Cycled(Continue(Settle(c.(pc := c.pc + 1, state := FetchOpcode))), mem, Rd(c.pc, mem(c.pc)))
  {
    RtsSkipCycle(c, mem(c.pc));
    TickRead(c, mem, c.pc, Settle(c.(pc := c.pc + 1, state := FetchOpcode)));
  }
}
