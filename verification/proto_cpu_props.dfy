/** Properties of the prototype core (src/cpu.rs): how its raw status byte
    relates to the flags the shared operations use, where it agrees with
    the covnes core and where it does not (PHP, PLP and RTI on the status
    byte, the branch target, the opcodes decoded). */
module ProtoCpuProps {
  import opened Common
  import opened Alu
  import opened ProtoCpu
  import Cpu6502
  import CpuCycles

  // ---------------------------------------------------------------------
  // The status byte

  /** After any change of registers, each flag bit of `p` holds its flag
      and bits 4 and 5 are those of the CPU before. */
  lemma WithRegsBits(c: Cpu, r: Regs)
    ensures var p := WithRegs(c, r).p;
            GetFlag(p, N) == r.f.n && GetFlag(p, V) == r.f.v && GetFlag(p, D) == r.f.d
            && GetFlag(p, I) == r.f.i && GetFlag(p, Z) == r.f.z && GetFlag(p, C) == r.f.c
            && p & 0x30 == c.p & 0x30
  {
  }

  /** Reading the flags back from the stored byte gives the flags stored. */
  lemma UnpackWithRegs(c: Cpu, r: Regs)
    ensures Unpack(WithRegs(c, r).p) == r.f
  {
  }

  /** An operation that changes nothing leaves the CPU as it was: `p` is
      exactly its six flags and bits 4 and 5. */
  lemma WithRegsUnchanged(c: Cpu)
    ensures WithRegs(c, ToRegs(c)) == c
  {
    assert Pack(Unpack(c.p)) | (c.p & 0x30) == c.p;
  }

  /** Setting or clearing C through the shared operations is
      `set_flag_value` on its mask; so for V, D and I below. */
  lemma FlagHelperC(c: Cpu, on: bool)
    ensures WithRegs(c, SetC(ToRegs(c), on)).p == SetFlagValue(c.p, C, on)
  {
  }

  lemma FlagHelperV(c: Cpu, on: bool)
    ensures WithRegs(c, SetV(ToRegs(c), on)).p == SetFlagValue(c.p, V, on)
  {
  }

  lemma FlagHelperD(c: Cpu, on: bool)
    ensures WithRegs(c, ToRegs(c).(f := Unpack(c.p).(d := on))).p == SetFlagValue(c.p, D, on)
  {
  }

  lemma FlagHelperI(c: Cpu, on: bool)
    ensures WithRegs(c, ToRegs(c).(f := Unpack(c.p).(i := on))).p == SetFlagValue(c.p, I, on)
  {
  }

  /** `get_d` as written reads I: with only D set it says false. */
  lemma GetDAsWrittenMissesDecimal()
    ensures Unpack(0x08).d && !GetDAsWritten(0x08)
    ensures !Unpack(0x04).d && GetDAsWritten(0x04)
  {
  }

  /** The decimal flag as the shared operations see it is what `GetD`
      reads. */
  lemma GetDReadsDecimal(p: bv8)
    ensures GetD(p) <==> Unpack(p).d
  {
  }

  // ---------------------------------------------------------------------
  // Agreement with the covnes core

  /** Every cycle but an opcode fetch continues with `After`. */
  lemma StepAfter(c: Cpu, d: bv8)
    requires c.state != FetchOpcode
    ensures Step(c, d) == Continue(After(c, d))
  {
  }

  /** Where the registers of `After` come from. */
  lemma AfterRegs(c: Cpu, d: bv8)
    ensures ToRegs(After(c, d)) == ToRegs(NextRegs(c, d)) && After(c, d).p == NextRegs(c, d).p
  {
  }

  /** Storing registers and reading them back is the identity on them. */
  lemma ToRegsWithRegs(c: Cpu, r: Regs)
    ensures ToRegs(WithRegs(c, r)) == r && WithRegs(c, r).p & 0x30 == c.p & 0x30
  {
    UnpackWithRegs(c, r);
  }

  lemma ImmediateRegs(c: Cpu, d: bv8)
    requires c.state.ImmediateR?
    ensures NextRegs(c, d) == WithRegs(c, ExecRead(c.state.ro, ToRegs(c), d))
  {
  }

  lemma OnAddressRegs(c: Cpu, d: bv8)
    requires c.state.ExecuteOnAddress? && c.state.op.OpRead?
    ensures NextRegs(c, d) == WithRegs(c, ExecRead(c.state.op.r, ToRegs(c), d))
  {
  }

  lemma LaterImmediateRegs(k: Cpu6502.Cpu, d: bv8)
    requires k.state.ImmediateR?
    ensures Cpu6502.NextRegs(k, d) == ExecRead(k.state.ro, k.regs, d)
  {
  }

  lemma LaterOnAddressRegs(k: Cpu6502.Cpu, d: bv8)
    requires k.state.ExecuteOnAddress? && k.state.op.OpRead?
    ensures Cpu6502.NextRegs(k, d) == ExecRead(k.state.op.r, k.regs, d)
  {
  }

  /** Both cores read the operand of a read operation at the same
      address. */
  lemma ReadOpsRequest(c: Cpu, k: Cpu6502.Cpu, ro: ReadOp, addr: bv16, high: bv8)
    requires c.state == ExecuteOnAddress(OpRead(ro), addr)
    requires k.state == Cpu6502.ExecuteOnAddress(Cpu6502.OpRead(ro), addr, high)
    ensures Request(c) == Cpu6502.Request(k) == Cpu6502.ReadAt(addr)
  {
  }

  /** A read operation on its operand does to the registers and flags what
      the covnes core does; bits 4 and 5 of `p` stay. */
  lemma ReadOpsAgree(c: Cpu, k: Cpu6502.Cpu, ro: ReadOp, addr: bv16, high: bv8, d: bv8)
    requires c.state == ExecuteOnAddress(OpRead(ro), addr)
    requires k.state == Cpu6502.ExecuteOnAddress(Cpu6502.OpRead(ro), addr, high)
    requires ToRegs(c) == k.regs
    ensures ToRegs(NextRegs(c, d)) == Cpu6502.NextRegs(k, d)
    ensures NextRegs(c, d).p & 0x30 == c.p & 0x30
  {
    OnAddressRegs(c, d);
    ToRegsWithRegs(c, ExecRead(ro, ToRegs(c), d));
    LaterOnAddressRegs(k, d);
  }

  /** Immediate operations agree the same way. */
  lemma ImmediateOpsAgree(c: Cpu, k: Cpu6502.Cpu, d: bv8)
    requires c.state.ImmediateR? && k.state == Cpu6502.ImmediateR(c.state.ro)
    requires ToRegs(c) == k.regs
    ensures ToRegs(NextRegs(c, d)) == Cpu6502.NextRegs(k, d)
    ensures NextRegs(c, d).p & 0x30 == c.p & 0x30
  {
    var r := ExecRead(c.state.ro, k.regs, d);
    LaterImmediateRegs(k, d);
    ImmediateRegs(c, d);
    ToRegsWithRegs(c, r);
  }

  /** The flags PLP and RTI leave are the ones the covnes core keeps; only
      the stored byte differs, holding bit 5 set and bit 4 clear. */
  lemma PulledFlagsAgree(d: bv8)
    ensures Unpack(Pulled(d)) == Cpu6502.PulledFlags(d)
    ensures Pulled(d) & 0x30 == 0x20 && Pulled(d) & 0xCF == d & 0xCF
  {
  }

  /** PLP pulls from the slot above S and stores the pulled byte with B
      clear and bit 5 set. */
  lemma PlpStores(c: Cpu, d: bv8)
    requires c.state == PLP3
    ensures Request(c) == Cpu6502.ReadAt(Cpu6502.Stack(c.s + 1))
    ensures After(c, d) == c.(s := c.s + 1, p := Pulled(d), state := FetchOpcode)
  {
  }

  /** RTI's status cycle does the same. */
  lemma RtiStores(c: Cpu, d: bv8)
    requires c.state == RTI3
    ensures Request(c) == Cpu6502.ReadAt(Cpu6502.Stack(c.s))
    ensures After(c, d) == c.(s := c.s + 1, p := Pulled(d), state := RTI4)
  {
  }

  /** PHP pushes `p` with B set, and bit 5 only if `p` holds it. */
  lemma PhpPushes(c: Cpu, d: bv8)
    requires c.state == PHP
    ensures NextState(c, d) == PHPA(c.p | 0x10)
    ensures After(c, d) == c.(state := PHPA(c.p | 0x10))
  {
  }

  /** The push cycle writes its byte at the top of the stack and moves S
      down. */
  lemma PushWrites(c: Cpu, d: bv8)
    requires c.state.PHPA?
    ensures Request(c) == Cpu6502.WriteAt(Cpu6502.Stack(c.s), c.state.value)
    ensures After(c, d) == c.(s := c.s - 1, state := FetchOpcode)
  {
  }

  // ---------------------------------------------------------------------
  // Branches

  /** The prototype's branch target differs from a signed add exactly for
      offset 0, which it turns into a jump 256 bytes back. */
  lemma BranchTargetAsWrittenZero(pc: bv16)
    ensures BranchTargetAsWritten(pc, 0) == pc - 0x100
    ensures Cpu6502.BranchTarget(pc, 0) == pc
    ensures BranchTargetAsWritten(pc, 0) != Cpu6502.BranchTarget(pc, 0)
  {
  }

  /** For every other offset the two agree. */
  lemma BranchTargetAsWrittenElsewhere(pc: bv16, offset: bv8)
    requires offset != 0
    ensures BranchTargetAsWritten(pc, offset) == Cpu6502.BranchTarget(pc, offset)
  {
  }

  /** A taken branch in this model lands where the covnes core lands:
      the next instruction plus the sign-extended offset
      (`CpuCycles.BranchTargetAddsSigned`). */
  lemma TakenBranchTarget(c: Cpu, d: bv8)
    requires c.state.Relative2?
    ensures NextPc(c, d) == Cpu6502.BranchTarget(c.pc, c.state.offset)
  {
  }

  /** The prototype's dummy read misses the target's low byte for every
      nonzero offset: it stays in the old page, but its low byte is the
      target's plus the offset. A branch from $10F0 by +$20 lands at $1110
      and reads at $1030 instead of $1010. */
  lemma BranchFixupAsWrittenMisses(pc: bv16, offset: bv8)
    requires offset != 0
    ensures Hi(BranchFixupAsWritten(pc, offset)) == Hi(pc)
    ensures Lo(BranchFixupAsWritten(pc, offset)) == Lo(BranchTargetAsWritten(pc, offset)) + offset
    ensures Lo(BranchFixupAsWritten(pc, offset)) != Lo(Cpu6502.BranchTarget(pc, offset))
    ensures BranchFixupAsWritten(0x10F0, 0x20) == 0x1030 && Cpu6502.BranchFixupAddress(0x10F0, 0x1110) == 0x1010
  {
    var t := BranchTargetAsWritten(pc, offset);
    BranchTargetAsWrittenElsewhere(pc, offset);
    FixupAsWrittenBytes(pc, t, offset);
    AddNonzero(Lo(t), offset);
  }

  lemma FixupAsWrittenBytes(pc: bv16, t: bv16, offset: bv8)
    ensures Hi(Cpu6502.BranchFixupAddressAsWritten(pc, t, offset)) == Hi(pc)
    ensures Lo(Cpu6502.BranchFixupAddressAsWritten(pc, t, offset)) == Lo(t) + offset
  {
  }

  lemma AddNonzero(a: bv8, b: bv8)
    requires b != 0
    ensures a + b != a
  {
  }

  /** A taken branch in this model reads at the target's low byte in the
      old page when it crosses a page, and fetches at once otherwise. */
  lemma TakenBranchFixup(c: Cpu, d: bv8)
    requires c.state.Relative2?
    ensures var t := Cpu6502.BranchTarget(c.pc, c.state.offset);
            && (Hi(t) == Hi(c.pc) ==> NextState(c, d) == FetchOpcode)
            && (Hi(t) != Hi(c.pc) ==> NextState(c, d).Relative3?
                                      && Hi(NextState(c, d).addr) == Hi(c.pc)
                                      && Lo(NextState(c, d).addr) == Lo(t) == Lo(c.pc) + c.state.offset)
  {
    Relative2State(c, d, c.state.offset);
    CpuCycles.BranchFixupStaysInPage(c.pc, c.state.offset);
  }

  lemma Relative2State(c: Cpu, d: bv8, offset: bv8)
    requires c.state == Relative2(offset)
    ensures var t := Cpu6502.BranchTarget(c.pc, offset);
            NextState(c, d) == if Hi(c.pc) != Hi(t) then Relative3(Cpu6502.BranchFixupAddress(c.pc, t)) else FetchOpcode
  {
  }

  // ---------------------------------------------------------------------
  // Decode

  /** The prototype decodes no opcode the covnes core rejects, nor ANC,
      ALR, ARR, AXS, SHY or SHX: every such opcode panics. */
  lemma DecodeOnlyListed(opcode: bv8)
    requires Cpu6502.Decode(opcode).None? || LaterOnly(opcode)
    ensures Decode(opcode).None?
  {
  }

}
