/** Termination of the prototype CPU pipeline (src/cpu.rs): every cycle
    inside an instruction brings the next opcode fetch closer. */
module ProtoProgress {
  import opened ProtoCpu

  /** Upper bound on the cycles left before the next opcode fetch. */
  function Remaining(s: S): nat {
    match s
    case FetchOpcode => 0
    case ImmediateR(_) => 1
    case AccRW(_) => 1
    case Implied(_) => 1
    case ZeroPage(op) => 1 + OnAddress(op)
    case ZeroPageX(op) => 2 + OnAddress(op)
    case ZeroPageY(op) => 2 + OnAddress(op)
    case Absolute(op) => 2 + OnAddress(op)
    case AbsoluteX(op) => 3 + OnAddress(op)
    case AbsoluteY(op) => 3 + OnAddress(op)
    case IndexedIndirect(op) => 4 + OnAddress(op)
    case IndexedIndirect2(op, _) => 3 + OnAddress(op)
    case IndexedIndirect3(op, _) => 2 + OnAddress(op)
    case IndirectIndexed(op) => 4 + OnAddress(op)
    case IndirectIndexed2(op, _) => 3 + OnAddress(op)
    case AddLowHigh(op, _, _) => 2 + OnAddress(op)
    case AddLowHighNoPen(op, _, _) => 1 + OnAddress(op)
    case FakeThenActual(op, _, _) => 1 + OnAddress(op)
    case ExecuteOnAddress(op, _) => OnAddress(op)
    case WriteBackThenWrite(_, _, _) => 2
    case WriteValue(_, _) => 1
    case Relative(_) => 3
    case Relative2(_) => 2
    case Relative3(_) => 1
    case BRK => 6
    case BRK2 => 5
    case BRK3 => 4
    case BRK4 => 3
    case BRK5 => 2
    case BRK6(_) => 1
    case RTI => 5
    case RTI2 => 4
    case RTI3 => 3
    case RTI4 => 2
    case RTI5(_) => 1
    case RTS => 5
    case RTS2 => 4
    case RTS3 => 3
    case RTS4(_) => 2
    case RTS5 => 1
    case PHA => 2
    case PHP => 2
    case PHPA(_) => 1
    case PLA => 3
    case PLA2 => 2
    case PLA3 => 1
    case PLP => 3
    case PLP2 => 2
    case PLP3 => 1
    case JSR => 5
    case JSR2(_) => 4
    case JSR3(_) => 3
    case JSR4(_) => 2
    case JSR5(_) => 1
    case JMPAbsolute => 2
    case JMPAbsolute2(_) => 1
    case JMPIndirect => 4
    case JMPIndirect2(_) => 3
    case JMPIndirect3(_) => 2
    case JMPIndirect4(_, _) => 1
  }

  /** Cycles of the final access: three for a read-modify-write (read,
      write back, write), one otherwise. */
  function OnAddress(op: Op): nat {
    if op.OpReadWrite? then 3 else 1
  }

  /** Every cycle inside an instruction brings the next opcode fetch
      strictly closer, and no instruction has more than seven cycles after
      its opcode fetch. */
  lemma CycleProgresses(c: Cpu, d: bv8)
    requires c.state != FetchOpcode
    ensures Remaining(c.state) <= 7
    ensures Remaining(After(c, d).state) < Remaining(c.state)
  {
    assert After(c, d).state == NextState(c, d);
    if c.state.ImmediateR? || c.state.ZeroPage? || c.state.ZeroPageX? || c.state.ZeroPageY?
       || c.state.Absolute? || c.state.AbsoluteX? || c.state.AbsoluteY? {
      ProgressOperand(c, d);
    } else if c.state.IndexedIndirect? || c.state.IndexedIndirect2? || c.state.IndexedIndirect3?
       || c.state.IndirectIndexed? || c.state.IndirectIndexed2? {
      ProgressPointer(c, d);
    } else if c.state.AddLowHigh? || c.state.AddLowHighNoPen? || c.state.FakeThenActual?
       || c.state.ExecuteOnAddress? || c.state.WriteBackThenWrite? || c.state.WriteValue? {
      ProgressAccess(c, d);
    } else if c.state.AccRW? || c.state.Implied? || c.state.Relative? || c.state.Relative2? || c.state.Relative3? {
      ProgressBranch(c, d);
    } else if c.state.BRK? || c.state.BRK2? || c.state.BRK3? || c.state.BRK4? || c.state.BRK5? || c.state.BRK6? {
      ProgressBrk(c, d);
    } else if c.state.RTI? || c.state.RTI2? || c.state.RTI3? || c.state.RTI4? || c.state.RTI5? {
      ProgressRti(c, d);
    } else if c.state.RTS? || c.state.RTS2? || c.state.RTS3? {
      ProgressRtsStart(c, d);
    } else if c.state.RTS4? || c.state.RTS5? {
      ProgressRtsEnd(c, d);
    } else if c.state.PHA? || c.state.PHP? || c.state.PHPA? {
      ProgressPush(c, d);
    } else if c.state.PLA? || c.state.PLA2? || c.state.PLA3? {
      ProgressPla(c, d);
    } else if c.state.PLP? || c.state.PLP2? || c.state.PLP3? {
      ProgressPlp(c, d);
    } else if c.state.JSR? || c.state.JSR2? || c.state.JSR3? {
      ProgressJsrStart(c, d);
    } else if c.state.JSR4? || c.state.JSR5? {
      ProgressJsrEnd(c, d);
    } else if c.state.JMPAbsolute? || c.state.JMPAbsolute2? {
      ProgressJmpAbsolute(c, d);
    } else if c.state.JMPIndirect? || c.state.JMPIndirect2? {
      ProgressJmpPointer(c, d);
    } else {
      ProgressJmpIndirect(c, d);
    }
  }

  lemma ProgressOperand(c: Cpu, d: bv8)
    requires c.state.ImmediateR? || c.state.ZeroPage? || c.state.ZeroPageX? || c.state.ZeroPageY?
             || c.state.Absolute? || c.state.AbsoluteX? || c.state.AbsoluteY?
    ensures Remaining(c.state) <= 7
    ensures Remaining(NextState(c, d)) < Remaining(c.state)
  {
  }

  lemma ProgressPointer(c: Cpu, d: bv8)
    requires c.state.IndexedIndirect? || c.state.IndexedIndirect2? || c.state.IndexedIndirect3?
             || c.state.IndirectIndexed? || c.state.IndirectIndexed2?
    ensures Remaining(c.state) <= 7
    ensures Remaining(NextState(c, d)) < Remaining(c.state)
  {
  }

  lemma ProgressAccess(c: Cpu, d: bv8)
    requires c.state.AddLowHigh? || c.state.AddLowHighNoPen? || c.state.FakeThenActual?
             || c.state.ExecuteOnAddress? || c.state.WriteBackThenWrite? || c.state.WriteValue?
    ensures Remaining(c.state) <= 7
    ensures Remaining(NextState(c, d)) < Remaining(c.state)
  {
  }

  lemma ProgressBranch(c: Cpu, d: bv8)
    requires c.state.AccRW? || c.state.Implied? || c.state.Relative? || c.state.Relative2? || c.state.Relative3?
    ensures Remaining(c.state) <= 7
    ensures Remaining(NextState(c, d)) < Remaining(c.state)
  {
  }

  lemma ProgressBrk(c: Cpu, d: bv8)
    requires c.state.BRK? || c.state.BRK2? || c.state.BRK3? || c.state.BRK4? || c.state.BRK5? || c.state.BRK6?
    ensures Remaining(c.state) <= 7
    ensures Remaining(NextState(c, d)) < Remaining(c.state)
  {
    if c.state.BRK? {
      ProgressBrkState(c, d);
    } else if c.state.BRK2? {
      ProgressBrk2State(c, d);
    } else if c.state.BRK3? {
      ProgressBrk3State(c, d);
    } else if c.state.BRK4? {
      ProgressBrk4State(c, d);
    } else if c.state.BRK5? {
      ProgressBrk5State(c, d);
    } else {
      ProgressBrk6State(c, d);
    }
  }

  lemma ProgressBrkState(c: Cpu, d: bv8)
    requires c.state.BRK?
    ensures Remaining(c.state) <= 7
    ensures Remaining(NextState(c, d)) < Remaining(c.state)
  {
  }

  lemma ProgressBrk2State(c: Cpu, d: bv8)
    requires c.state.BRK2?
    ensures Remaining(c.state) <= 7
    ensures Remaining(NextState(c, d)) < Remaining(c.state)
  {
  }

  lemma ProgressBrk3State(c: Cpu, d: bv8)
    requires c.state.BRK3?
    ensures Remaining(c.state) <= 7
    ensures Remaining(NextState(c, d)) < Remaining(c.state)
  {
  }

  lemma ProgressBrk4State(c: Cpu, d: bv8)
    requires c.state.BRK4?
    ensures Remaining(c.state) <= 7
    ensures Remaining(NextState(c, d)) < Remaining(c.state)
  {
  }

  lemma ProgressBrk5State(c: Cpu, d: bv8)
    requires c.state.BRK5?
    ensures Remaining(c.state) <= 7
    ensures Remaining(NextState(c, d)) < Remaining(c.state)
  {
  }

  lemma ProgressBrk6State(c: Cpu, d: bv8)
    requires c.state.BRK6?
    ensures Remaining(c.state) <= 7
    ensures Remaining(NextState(c, d)) < Remaining(c.state)
  {
  }

  /** Through RTI. */
  lemma ProgressRti(c: Cpu, d: bv8)
    requires c.state.RTI? || c.state.RTI2? || c.state.RTI3? || c.state.RTI4? || c.state.RTI5?
    ensures Remaining(c.state) <= 7
    ensures Remaining(NextState(c, d)) < Remaining(c.state)
  {
    if c.state.RTI? {
      ProgressRtiState(c, d);
    } else if c.state.RTI2? {
      ProgressRti2State(c, d);
    } else if c.state.RTI3? {
      ProgressRti3State(c, d);
    } else if c.state.RTI4? {
      ProgressRti4State(c, d);
    } else {
      ProgressRti5State(c, d);
    }
  }

  lemma ProgressRtiState(c: Cpu, d: bv8)
    requires c.state.RTI?
    ensures Remaining(c.state) <= 7
    ensures Remaining(NextState(c, d)) < Remaining(c.state)
  {
  }

  lemma ProgressRti2State(c: Cpu, d: bv8)
    requires c.state.RTI2?
    ensures Remaining(c.state) <= 7
    ensures Remaining(NextState(c, d)) < Remaining(c.state)
  {
  }

  lemma ProgressRti3State(c: Cpu, d: bv8)
    requires c.state.RTI3?
    ensures Remaining(c.state) <= 7
    ensures Remaining(NextState(c, d)) < Remaining(c.state)
  {
  }

  lemma ProgressRti4State(c: Cpu, d: bv8)
    requires c.state.RTI4?
    ensures Remaining(c.state) <= 7
    ensures Remaining(NextState(c, d)) < Remaining(c.state)
  {
  }

  lemma ProgressRti5State(c: Cpu, d: bv8)
    requires c.state.RTI5?
    ensures Remaining(c.state) <= 7
    ensures Remaining(NextState(c, d)) < Remaining(c.state)
  {
  }

  /** Through RTS. */
  lemma ProgressRtsStart(c: Cpu, d: bv8)
    requires c.state.RTS? || c.state.RTS2? || c.state.RTS3?
    ensures Remaining(c.state) <= 7
    ensures Remaining(NextState(c, d)) < Remaining(c.state)
  {
    if c.state.RTS? {
      ProgressRtsState(c, d);
    } else if c.state.RTS2? {
      ProgressRts2State(c, d);
    } else {
      ProgressRts3State(c, d);
    }
  }

  lemma ProgressRtsState(c: Cpu, d: bv8)
    requires c.state.RTS?
    ensures Remaining(c.state) <= 7
    ensures Remaining(NextState(c, d)) < Remaining(c.state)
  {
  }

  lemma ProgressRts2State(c: Cpu, d: bv8)
    requires c.state.RTS2?
    ensures Remaining(c.state) <= 7
    ensures Remaining(NextState(c, d)) < Remaining(c.state)
  {
  }

  lemma ProgressRts3State(c: Cpu, d: bv8)
    requires c.state.RTS3?
    ensures Remaining(c.state) <= 7
    ensures Remaining(NextState(c, d)) < Remaining(c.state)
  {
  }

  lemma ProgressRtsEnd(c: Cpu, d: bv8)
    requires c.state.RTS4? || c.state.RTS5?
    ensures Remaining(c.state) <= 7
    ensures Remaining(NextState(c, d)) < Remaining(c.state)
  {
  }

  /** Through PHA and PHP. */
  lemma ProgressPush(c: Cpu, d: bv8)
    requires c.state.PHA? || c.state.PHP? || c.state.PHPA?
    ensures Remaining(c.state) <= 7
    ensures Remaining(NextState(c, d)) < Remaining(c.state)
  {
    if c.state.PHA? {
      ProgressPhaState(c, d);
    } else if c.state.PHP? {
      ProgressPhpState(c, d);
    } else {
      ProgressPhpaState(c, d);
    }
  }

  lemma ProgressPhaState(c: Cpu, d: bv8)
    requires c.state.PHA?
    ensures Remaining(c.state) <= 7
    ensures Remaining(NextState(c, d)) < Remaining(c.state)
  {
  }

  lemma ProgressPhpState(c: Cpu, d: bv8)
    requires c.state.PHP?
    ensures Remaining(c.state) <= 7
    ensures Remaining(NextState(c, d)) < Remaining(c.state)
  {
  }

  lemma ProgressPhpaState(c: Cpu, d: bv8)
    requires c.state.PHPA?
    ensures Remaining(c.state) <= 7
    ensures Remaining(NextState(c, d)) < Remaining(c.state)
  {
  }

  /** Through PLA. */
  lemma ProgressPla(c: Cpu, d: bv8)
    requires c.state.PLA? || c.state.PLA2? || c.state.PLA3?
    ensures Remaining(c.state) <= 7
    ensures Remaining(NextState(c, d)) < Remaining(c.state)
  {
    if c.state.PLA? {
      ProgressPlaState(c, d);
    } else if c.state.PLA2? {
      ProgressPla2State(c, d);
    } else {
      ProgressPla3State(c, d);
    }
  }

  lemma ProgressPlaState(c: Cpu, d: bv8)
    requires c.state.PLA?
    ensures Remaining(c.state) <= 7
    ensures Remaining(NextState(c, d)) < Remaining(c.state)
  {
  }

  lemma ProgressPla2State(c: Cpu, d: bv8)
    requires c.state.PLA2?
    ensures Remaining(c.state) <= 7
    ensures Remaining(NextState(c, d)) < Remaining(c.state)
  {
  }

  lemma ProgressPla3State(c: Cpu, d: bv8)
    requires c.state.PLA3?
    ensures Remaining(c.state) <= 7
    ensures Remaining(NextState(c, d)) < Remaining(c.state)
  {
  }

  /** Through PLP. */
  lemma ProgressPlp(c: Cpu, d: bv8)
    requires c.state.PLP? || c.state.PLP2? || c.state.PLP3?
    ensures Remaining(c.state) <= 7
    ensures Remaining(NextState(c, d)) < Remaining(c.state)
  {
    if c.state.PLP? {
      ProgressPlpState(c, d);
    } else if c.state.PLP2? {
      ProgressPlp2State(c, d);
    } else {
      ProgressPlp3State(c, d);
    }
  }

  lemma ProgressPlpState(c: Cpu, d: bv8)
    requires c.state.PLP?
    ensures Remaining(c.state) <= 7
    ensures Remaining(NextState(c, d)) < Remaining(c.state)
  {
  }

  lemma ProgressPlp2State(c: Cpu, d: bv8)
    requires c.state.PLP2?
    ensures Remaining(c.state) <= 7
    ensures Remaining(NextState(c, d)) < Remaining(c.state)
  {
  }

  lemma ProgressPlp3State(c: Cpu, d: bv8)
    requires c.state.PLP3?
    ensures Remaining(c.state) <= 7
    ensures Remaining(NextState(c, d)) < Remaining(c.state)
  {
  }

  /** Through JSR. */
  lemma ProgressJsrStart(c: Cpu, d: bv8)
    requires c.state.JSR? || c.state.JSR2? || c.state.JSR3?
    ensures Remaining(c.state) <= 7
    ensures Remaining(NextState(c, d)) < Remaining(c.state)
  {
    if c.state.JSR? {
      ProgressJsrState(c, d);
    } else if c.state.JSR2? {
      ProgressJsr2State(c, d);
    } else {
      ProgressJsr3State(c, d);
    }
  }

  lemma ProgressJsrState(c: Cpu, d: bv8)
    requires c.state.JSR?
    ensures Remaining(c.state) <= 7
    ensures Remaining(NextState(c, d)) < Remaining(c.state)
  {
  }

  lemma ProgressJsr2State(c: Cpu, d: bv8)
    requires c.state.JSR2?
    ensures Remaining(c.state) <= 7
    ensures Remaining(NextState(c, d)) < Remaining(c.state)
  {
  }

  lemma ProgressJsr3State(c: Cpu, d: bv8)
    requires c.state.JSR3?
    ensures Remaining(c.state) <= 7
    ensures Remaining(NextState(c, d)) < Remaining(c.state)
  {
  }

  lemma ProgressJsrEnd(c: Cpu, d: bv8)
    requires c.state.JSR4? || c.state.JSR5?
    ensures Remaining(c.state) <= 7
    ensures Remaining(NextState(c, d)) < Remaining(c.state)
  {
    if c.state.JSR4? {
      ProgressJsr4State(c, d);
    } else {
      ProgressJsr5State(c, d);
    }
  }

  lemma ProgressJsr4State(c: Cpu, d: bv8)
    requires c.state.JSR4?
    ensures Remaining(c.state) <= 7
    ensures Remaining(NextState(c, d)) < Remaining(c.state)
  {
  }

  lemma ProgressJsr5State(c: Cpu, d: bv8)
    requires c.state.JSR5?
    ensures Remaining(c.state) <= 7
    ensures Remaining(NextState(c, d)) < Remaining(c.state)
  {
  }

  /** Through JMP absolute. */
  lemma ProgressJmpAbsolute(c: Cpu, d: bv8)
    requires c.state.JMPAbsolute? || c.state.JMPAbsolute2?
    ensures Remaining(c.state) <= 7
    ensures Remaining(NextState(c, d)) < Remaining(c.state)
  {
    if c.state.JMPAbsolute? {
      ProgressJmpAbsoluteState(c, d);
    } else {
      ProgressJmpAbsolute2State(c, d);
    }
  }

  lemma ProgressJmpAbsoluteState(c: Cpu, d: bv8)
    requires c.state.JMPAbsolute?
    ensures Remaining(c.state) <= 7
    ensures Remaining(NextState(c, d)) < Remaining(c.state)
  {
  }

  lemma ProgressJmpAbsolute2State(c: Cpu, d: bv8)
    requires c.state.JMPAbsolute2?
    ensures Remaining(c.state) <= 7
    ensures Remaining(NextState(c, d)) < Remaining(c.state)
  {
  }

  /** Through JMP indirect. */
  lemma ProgressJmpPointer(c: Cpu, d: bv8)
    requires c.state.JMPIndirect? || c.state.JMPIndirect2?
    ensures Remaining(c.state) <= 7
    ensures Remaining(NextState(c, d)) < Remaining(c.state)
  {
    if c.state.JMPIndirect? {
      ProgressJmpIndirectState(c, d);
    } else {
      ProgressJmpIndirect2State(c, d);
    }
  }

  lemma ProgressJmpIndirectState(c: Cpu, d: bv8)
    requires c.state.JMPIndirect?
    ensures Remaining(c.state) <= 7
    ensures Remaining(NextState(c, d)) < Remaining(c.state)
  {
  }

  lemma ProgressJmpIndirect2State(c: Cpu, d: bv8)
    requires c.state.JMPIndirect2?
    ensures Remaining(c.state) <= 7
    ensures Remaining(NextState(c, d)) < Remaining(c.state)
  {
  }

  lemma ProgressJmpIndirect(c: Cpu, d: bv8)
    requires c.state.JMPIndirect3? || c.state.JMPIndirect4?
    ensures Remaining(c.state) <= 7
    ensures Remaining(NextState(c, d)) < Remaining(c.state)
  {
    if c.state.JMPIndirect3? {
      ProgressJmpIndirect3State(c, d);
    } else {
      ProgressJmpIndirect4State(c, d);
    }
  }

  lemma ProgressJmpIndirect3State(c: Cpu, d: bv8)
    requires c.state.JMPIndirect3?
    ensures Remaining(c.state) <= 7
    ensures Remaining(NextState(c, d)) < Remaining(c.state)
  {
  }

  lemma ProgressJmpIndirect4State(c: Cpu, d: bv8)
    requires c.state.JMPIndirect4?
    ensures Remaining(c.state) <= 7
    ensures Remaining(NextState(c, d)) < Remaining(c.state)
  {
  }

  /** No opcode decodes to an empty instruction: an opcode fetch that
      decodes always starts a sequence of one to seven further cycles. */
  lemma FetchStarts(c: Cpu, d: bv8)
    requires c.state == FetchOpcode && Step(c, d).Continue?
    ensures 1 <= Remaining(Step(c, d).cpu.state) <= 7
  {
    var s := Step(c, d).cpu.state;
    assert s != FetchOpcode;
    CycleProgresses(Step(c, d).cpu, 0);
  }
}
