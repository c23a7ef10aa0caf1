/** Termination of the covnes CPU pipeline (covnes/src/cpu.rs): every
    cycle inside an instruction or interrupt sequence brings the next
    opcode fetch closer, so every instruction finishes. */
module CpuProgress {
  import opened Alu
  import opened Cpu6502

  /** Upper bound on the cycles left before the next opcode fetch. */
  function Remaining(s: S): nat {
    match s
    case FetchOpcode => 0
    case ImmediateR(_) => 1
    case AccRW(_) => 1
    case Implied(_) => 1
    case ZeroPage(op) => 1 + OnAddress(op)
    case ZeroPageX(op) => 2 + OnAddress(op)
    case ZeroPageY(op) => 2 + OnAddress(op)
    case Absolute(op) => 2 + OnAddress(op)
    case AbsoluteX(op) => 3 + OnAddress(op)
    case AbsoluteY(op) => 3 + OnAddress(op)
    case IndexedIndirect(op) => 4 + OnAddress(op)
    case IndexedIndirect2(op, _) => 3 + OnAddress(op)
    case IndexedIndirect3(op, _) => 2 + OnAddress(op)
    case IndirectIndexed(op) => 4 + OnAddress(op)
    case IndirectIndexed2(op, _) => 3 + OnAddress(op)
    case AddLowHigh(op, _, _) => 2 + OnAddress(op)
    case AddLowHighNoPen(op, _, _) => 1 + OnAddress(op)
    case FakeThenActual(op, _, _) => 1 + OnAddress(op)
    case ExecuteOnAddress(op, _, _) => OnAddress(op)
    case WriteBackThenWrite(_, _, _) => 2
    case WriteValue(_, _) => 1
    case Relative(_) => 3
    case Relative2(_) => 2
    case Relative3(_) => 1
    case Reset => 7
    case Int(_) => 6
    case Int2(_) => 5
    case Int3(_) => 4
    case Int4(_, _) => 3
    case Int5(_) => 2
    case Int6(_, _) => 1
    case RTI => 5
    case RTI2 => 4
    case RTI3 => 3
    case RTI4 => 2
    case RTI5(_) => 1
    case RTS => 5
    case RTS2 => 4
    case RTS3 => 3
    case RTS4(_) => 2
    case RTS5 => 1
    case PHA => 2
    case PHP => 2
    case PHPA(_) => 1
    case PLA => 3
    case PLA2 => 2
    case PLA3 => 1
    case PLP => 3
    case PLP2 => 2
    case PLP3 => 1
    case JSR => 5
    case JSR2(_) => 4
    case JSR3(_) => 3
    case JSR4(_) => 2
    case JSR5(_) => 1
    case JMPAbsolute => 2
    case JMPAbsolute2(_) => 1
    case JMPIndirect => 4
    case JMPIndirect2(_) => 3
    case JMPIndirect3(_) => 2
    case JMPIndirect4(_, _) => 1
  }

  /** Cycles of the final access: three for a read-modify-write (read,
      write back, write), one otherwise. */
  function OnAddress(op: Op): nat {
    if op.OpReadWrite? then 3 else 1
  }

  /** Every cycle inside an instruction brings the next opcode fetch
      strictly closer, and no instruction or interrupt sequence has more
      than seven cycles after its first. */
  lemma CycleProgresses(c: Cpu, d: bv8, n: Line)
    requires c.state != FetchOpcode
    ensures Remaining(c.state) <= 7
    ensures Remaining(NextState(c, d, n)) < Remaining(c.state)
  {
    if c.state.ImmediateR? || c.state.ZeroPage? || c.state.ZeroPageX? || c.state.ZeroPageY? {
      ProgressImmediate(c, d, n);
    } else if c.state.Absolute? || c.state.AbsoluteX? || c.state.AbsoluteY? {
      ProgressAbsolute(c, d, n);
    } else if c.state.IndexedIndirect? || c.state.IndexedIndirect2? || c.state.IndexedIndirect3? {
      ProgressIndexedIndirect(c, d, n);
    } else if c.state.IndirectIndexed? || c.state.IndirectIndexed2? {
      ProgressIndirectIndexed(c, d, n);
    } else if c.state.AddLowHigh? || c.state.AddLowHighNoPen? {
      ProgressHighByte(c, d, n);
    } else if c.state.FakeThenActual? || c.state.ExecuteOnAddress? {
      ProgressOnAddress(c, d, n);
    } else if c.state.WriteBackThenWrite? || c.state.WriteValue? {
      ProgressWrites(c, d, n);
    } else if c.state.AccRW? || c.state.Implied? {
      ProgressShort(c, d, n);
    } else if c.state.Relative? || c.state.Relative2? || c.state.Relative3? {
      ProgressBranch(c, d, n);
    } else if c.state.Reset? || c.state.Int? || c.state.Int2? {
      ProgressIntStart(c, d, n);
    } else if c.state.Int3? || c.state.Int4? {
      ProgressIntPush(c, d, n);
    } else if c.state.Int5? || c.state.Int6? {
      ProgressIntVector(c, d, n);
    } else if c.state.RTI? || c.state.RTI2? || c.state.RTI3? {
      ProgressRtiStart(c, d, n);
    } else if c.state.RTI4? || c.state.RTI5? {
      ProgressRtiEnd(c, d, n);
    } else if c.state.RTS? || c.state.RTS2? || c.state.RTS3? {
      ProgressRtsStart(c, d, n);
    } else if c.state.RTS4? || c.state.RTS5? {
      ProgressRtsEnd(c, d, n);
    } else if c.state.PHA? || c.state.PHP? || c.state.PHPA? {
      ProgressPush(c, d, n);
    } else if c.state.PLA? || c.state.PLA2? || c.state.PLA3? {
      ProgressPla(c, d, n);
    } else if c.state.PLP? || c.state.PLP2? || c.state.PLP3? {
      ProgressPlp(c, d, n);
    } else if c.state.JSR? || c.state.JSR2? || c.state.JSR3? {
      ProgressJsrStart(c, d, n);
    } else if c.state.JSR4? || c.state.JSR5? {
      ProgressJsrEnd(c, d, n);
    } else if c.state.JMPAbsolute? || c.state.JMPAbsolute2? {
      ProgressJmpAbsolute(c, d, n);
    } else if c.state.JMPIndirect? || c.state.JMPIndirect2? {
      ProgressJmpPointer(c, d, n);
    } else {
      ProgressJmpIndirect(c, d, n);
    }
  }

  /** Progress through the single-operand and zero-page fetches. */
  lemma ProgressImmediate(c: Cpu, d: bv8, n: Line)
    requires c.state.ImmediateR? || c.state.ZeroPage? || c.state.ZeroPageX? || c.state.ZeroPageY?
    ensures Remaining(c.state) <= 7
    ensures Remaining(NextState(c, d, n)) < Remaining(c.state)
  {
  }

  /** Progress through the absolute operand fetches. */
  lemma ProgressAbsolute(c: Cpu, d: bv8, n: Line)
    requires c.state.Absolute? || c.state.AbsoluteX? || c.state.AbsoluteY?
    ensures Remaining(c.state) <= 7
    ensures Remaining(NextState(c, d, n)) < Remaining(c.state)
  {
  }

  /** Progress through the (zp,X) pointer fetches. */
  lemma ProgressIndexedIndirect(c: Cpu, d: bv8, n: Line)
    requires c.state.IndexedIndirect? || c.state.IndexedIndirect2? || c.state.IndexedIndirect3?
    ensures Remaining(c.state) <= 7
    ensures Remaining(NextState(c, d, n)) < Remaining(c.state)
  {
  }

  /** Progress through the (zp),Y pointer fetches. */
  lemma ProgressIndirectIndexed(c: Cpu, d: bv8, n: Line)
    requires c.state.IndirectIndexed? || c.state.IndirectIndexed2?
    ensures Remaining(c.state) <= 7
    ensures Remaining(NextState(c, d, n)) < Remaining(c.state)
  {
  }

  /** Progress through the high-byte cycles. */
  lemma ProgressHighByte(c: Cpu, d: bv8, n: Line)
    requires c.state.AddLowHigh? || c.state.AddLowHighNoPen?
    ensures Remaining(c.state) <= 7
    ensures Remaining(NextState(c, d, n)) < Remaining(c.state)
  {
  }

  /** Progress through the cycles on the effective address. */
  lemma ProgressOnAddress(c: Cpu, d: bv8, n: Line)
    requires c.state.FakeThenActual? || c.state.ExecuteOnAddress?
    ensures Remaining(c.state) <= 7
    ensures Remaining(NextState(c, d, n)) < Remaining(c.state)
  {
  }

  /** Progress through the final writes. */
  lemma ProgressWrites(c: Cpu, d: bv8, n: Line)
    requires c.state.WriteBackThenWrite? || c.state.WriteValue?
    ensures Remaining(c.state) <= 7
    ensures Remaining(NextState(c, d, n)) < Remaining(c.state)
  {
  }

  /** Progress through accumulator and implied operations. */
  lemma ProgressShort(c: Cpu, d: bv8, n: Line)
    requires c.state.AccRW? || c.state.Implied?
    ensures Remaining(c.state) <= 7
    ensures Remaining(NextState(c, d, n)) < Remaining(c.state)
  {
  }

  /** Progress through branches. */
  lemma ProgressBranch(c: Cpu, d: bv8, n: Line)
    requires c.state.Relative? || c.state.Relative2? || c.state.Relative3?
    ensures Remaining(c.state) <= 7
    ensures Remaining(NextState(c, d, n)) < Remaining(c.state)
  {
  }

  /** Progress through reset and the start of an interrupt. */
  lemma ProgressIntStart(c: Cpu, d: bv8, n: Line)
    requires c.state.Reset? || c.state.Int? || c.state.Int2?
    ensures Remaining(c.state) <= 7
    ensures Remaining(NextState(c, d, n)) < Remaining(c.state)
  {
  }

  /** Progress through the interrupt pushes. */
  lemma ProgressIntPush(c: Cpu, d: bv8, n: Line)
    requires c.state.Int3? || c.state.Int4?
    ensures Remaining(c.state) <= 7
    ensures Remaining(NextState(c, d, n)) < Remaining(c.state)
  {
  }

  /** Progress through the vector fetch. */
  lemma ProgressIntVector(c: Cpu, d: bv8, n: Line)
    requires c.state.Int5? || c.state.Int6?
    ensures Remaining(c.state) <= 7
    ensures Remaining(NextState(c, d, n)) < Remaining(c.state)
  {
  }

  /** Progress through the start of RTI. */
  lemma ProgressRtiStart(c: Cpu, d: bv8, n: Line)
    requires c.state.RTI? || c.state.RTI2? || c.state.RTI3?
    ensures Remaining(c.state) <= 7
    ensures Remaining(NextState(c, d, n)) < Remaining(c.state)
  {
  }

  /** Progress through the end of RTI. */
  lemma ProgressRtiEnd(c: Cpu, d: bv8, n: Line)
    requires c.state.RTI4? || c.state.RTI5?
    ensures Remaining(c.state) <= 7
    ensures Remaining(NextState(c, d, n)) < Remaining(c.state)
  {
  }

  /** Progress through the start of RTS. */
  lemma ProgressRtsStart(c: Cpu, d: bv8, n: Line)
    requires c.state.RTS? || c.state.RTS2? || c.state.RTS3?
    ensures Remaining(c.state) <= 7
    ensures Remaining(NextState(c, d, n)) < Remaining(c.state)
  {
  }

  /** Progress through the end of RTS. */
  lemma ProgressRtsEnd(c: Cpu, d: bv8, n: Line)
    requires c.state.RTS4? || c.state.RTS5?
    ensures Remaining(c.state) <= 7
    ensures Remaining(NextState(c, d, n)) < Remaining(c.state)
  {
  }

  /** Progress through PHA and PHP. */
  lemma ProgressPush(c: Cpu, d: bv8, n: Line)
    requires c.state.PHA? || c.state.PHP? || c.state.PHPA?
    ensures Remaining(c.state) <= 7
    ensures Remaining(NextState(c, d, n)) < Remaining(c.state)
  {
  }

  /** Progress through PLA. */
  lemma ProgressPla(c: Cpu, d: bv8, n: Line)
    requires c.state.PLA? || c.state.PLA2? || c.state.PLA3?
    ensures Remaining(c.state) <= 7
    ensures Remaining(NextState(c, d, n)) < Remaining(c.state)
  {
  }

  /** Progress through PLP. */
  lemma ProgressPlp(c: Cpu, d: bv8, n: Line)
    requires c.state.PLP? || c.state.PLP2? || c.state.PLP3?
    ensures Remaining(c.state) <= 7
    ensures Remaining(NextState(c, d, n)) < Remaining(c.state)
  {
  }

  /** Progress through the start of JSR. */
  lemma ProgressJsrStart(c: Cpu, d: bv8, n: Line)
    requires c.state.JSR? || c.state.JSR2? || c.state.JSR3?
    ensures Remaining(c.state) <= 7
    ensures Remaining(NextState(c, d, n)) < Remaining(c.state)
  {
  }

  /** Progress through the end of JSR. */
  lemma ProgressJsrEnd(c: Cpu, d: bv8, n: Line)
    requires c.state.JSR4? || c.state.JSR5?
    ensures Remaining(c.state) <= 7
    ensures Remaining(NextState(c, d, n)) < Remaining(c.state)
  {
  }

  /** Progress through JMP absolute. */
  lemma ProgressJmpAbsolute(c: Cpu, d: bv8, n: Line)
    requires c.state.JMPAbsolute? || c.state.JMPAbsolute2?
    ensures Remaining(c.state) <= 7
    ensures Remaining(NextState(c, d, n)) < Remaining(c.state)
  {
  }

  /** Progress through the pointer fetch of JMP indirect. */
  lemma ProgressJmpPointer(c: Cpu, d: bv8, n: Line)
    requires c.state.JMPIndirect? || c.state.JMPIndirect2?
    ensures Remaining(c.state) <= 7
    ensures Remaining(NextState(c, d, n)) < Remaining(c.state)
  {
  }

  /** Progress through the target fetch of JMP indirect. */
  lemma ProgressJmpIndirect(c: Cpu, d: bv8, n: Line)
    requires c.state.JMPIndirect3? || c.state.JMPIndirect4?
    ensures Remaining(c.state) <= 7
    ensures Remaining(NextState(c, d, n)) < Remaining(c.state)
  {
  }
}
