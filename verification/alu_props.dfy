/** Properties of the shared 6502 arithmetic: what ADC, SBC and the
    compares compute, that the rotates invert each other, that INC and DEC
    undo each other, and how the branch conditions pair up. */
module AluProps {
  import opened Alu

  /** Packing and unpacking the status byte are inverse on flag sets, and on
      bytes up to the two non-flag bits. */
  lemma PackUnpack(f: Flags, p: bv8)
    ensures Unpack(Pack(f)) == f
    ensures Pack(Unpack(p)) == p & 0xCF
  {
  }

  /** ADC is binary addition with carry: the result is A + M + C modulo
      256, and carry out is set exactly when the full sum exceeds a byte; V
      reports signed overflow (operands of equal sign, result of the other);
      Z and N describe the result; D and I, the index registers and the
      stack pointer are untouched. */
  lemma AdcAdds(r: Regs, m: bv8)
    ensures var r' := ExecRead(ADC, r, m);
      && r'.a == r.a + m + Carry(r)
      && (r'.f.c <==> (r.a as bv16) + (m as bv16) + (Carry(r) as bv16) >= 0x100)
      && (r'.f.v <==> (r.a & 0x80 == m & 0x80 && r'.a & 0x80 != r.a & 0x80))
      && (r'.f.z <==> r'.a == 0)
      && (r'.f.n <==> r'.a & 0x80 == 0x80)
      && r'.f.d == r.f.d && r'.f.i == r.f.i
      && r'.x == r.x && r'.y == r.y && r'.s == r.s
  {
    AdcResult(r, m);
    AdcCarryOut(r, m);
    AdcOverflow(r, m);
  }

  lemma AdcResult(r: Regs, m: bv8)
    ensures Adc(r, m).a == r.a + m + Carry(r)
  {
    AdcFields(r, m);
    LowByteOfSum(r.a, m, Carry(r));
  }

  lemma AdcCarryOut(r: Regs, m: bv8)
    ensures Adc(r, m).f.c <==> (r.a as bv16) + (m as bv16) + (Carry(r) as bv16) >= 0x100
  {
    AdcFields(r, m);
    SumCarry(r.a, m, Carry(r));
  }

  /** The accumulator and carry of ADC in terms of the 16-bit sum. */
  lemma AdcFields(r: Regs, m: bv8)
    ensures Adc(r, m).a == (AdcSum(r.a, m, Carry(r)) & 0xFF) as bv8
    ensures Adc(r, m).f.c == (AdcSum(r.a, m, Carry(r)) > 0xFF)
  {
  }

  /** The low byte of the 16-bit sum is the 8-bit sum. */
  lemma LowByteOfSum(a: bv8, m: bv8, c: bv8)
    ensures (AdcSum(a, m, c) & 0xFF) as bv8 == a + m + c
  {
  }

  /** The 16-bit sum exceeds a byte exactly when it reaches 0x100. */
  lemma SumCarry(a: bv8, m: bv8, c: bv8)
    ensures AdcSum(a, m, c) > 0xFF <==> (a as bv16) + (m as bv16) + (c as bv16) >= 0x100
  {
  }

  lemma AdcOverflow(r: Regs, m: bv8)
    ensures var r' := Adc(r, m);
      r'.f.v <==> (r.a & 0x80 == m & 0x80 && r'.a & 0x80 != r.a & 0x80)
  {
  }

  /** Adding the complement with carry in c is subtracting with borrow 1 - c;
      the addition carries out exactly when the subtraction does not borrow. */
  lemma ComplementSum(a: bv8, m: bv8, c: bv8)
    requires c <= 1
    ensures a + !m + c == a - m - (1 - c)
  {
  }

  lemma ComplementCarry(a: bv8, m: bv8, c: bv8)
    requires c <= 1
    ensures (a as bv16) + ((!m) as bv16) + (c as bv16) >= 0x100 <==> (a as bv16) >= (m as bv16) + ((1 - c) as bv16)
  {
  }

  /** SBC is subtraction with borrow: the result is A - M - (1 - C) modulo
      256, carry is set exactly when no borrow occurs (A >= M + 1 - C), and
      V reports signed overflow (operands of different sign, result with
      the sign of M). */
  lemma SbcSubtracts(r: Regs, m: bv8)
    ensures var r' := ExecRead(SBC, r, m);
      && r'.a == r.a - m - (1 - Carry(r))
      && (r'.f.c <==> (r.a as bv16) >= (m as bv16) + ((1 - Carry(r)) as bv16))
      && (r'.f.v <==> (r.a & 0x80 != m & 0x80 && r'.a & 0x80 != r.a & 0x80))
      && (r'.f.z <==> r'.a == 0)
      && r'.x == r.x && r'.y == r.y && r'.s == r.s
  {
    SbcResult(r, m);
    SbcBorrow(r, m);
    AdcOverflow(r, !m);
  }

  lemma SbcResult(r: Regs, m: bv8)
    ensures Adc(r, !m).a == r.a - m - (1 - Carry(r))
  {
    AdcFields(r, !m);
    ComplementLowByte(r, m);
  }

  /** The low byte of the sum with the complement is the difference with
      borrow. */
  lemma ComplementLowByte(r: Regs, m: bv8)
    ensures (AdcSum(r.a, !m, Carry(r)) & 0xFF) as bv8 == r.a - m - (1 - Carry(r))
  {
    LowByteOfSum(r.a, !m, Carry(r));
    ComplementSum(r.a, m, Carry(r));
  }

  lemma SbcBorrow(r: Regs, m: bv8)
    ensures Adc(r, !m).f.c <==> (r.a as bv16) >= (m as bv16) + ((1 - Carry(r)) as bv16)
  {
    AdcCarryOut(r, !m);
    ComplementCarry(r.a, m, Carry(r));
  }

  /** CMP, CPX and CPY compare A, X and Y respectively with the operand
      and change nothing but the flags. */
  lemma CompareOps(r: Regs, m: bv8)
    ensures ExecRead(CMP, r, m) == Compare(r, r.a, m)
    ensures ExecRead(CPX, r, m) == Compare(r, r.x, m)
    ensures ExecRead(CPY, r, m) == Compare(r, r.y, m)
  {
  }

  /** A compare leaves every register but P alone; C is set iff the
      register is at least the operand, Z iff they are equal, N is bit 7 of
      the wrapped difference; V, D and I are untouched. */
  lemma CompareSpec(r: Regs, reg: bv8, m: bv8)
    ensures var r' := Compare(r, reg, m);
      && r'.a == r.a && r'.x == r.x && r'.y == r.y && r'.s == r.s
      && (r'.f.c <==> reg >= m)
      && (r'.f.z <==> reg == m)
      && (r'.f.n <==> (reg - m) & 0x80 == 0x80)
      && r'.f.v == r.f.v && r'.f.d == r.f.d && r'.f.i == r.f.i
  {
  }

  /** ROL followed by ROR of the rotated value restores both the operand and
      the carry: the two rotates are inverse through the carry flag. */
  lemma RotateRoundTrip(r: Regs, m: bv8)
    ensures var w1 := ExecRmw(ROL, r, m);
      var w2 := ExecRmw(ROR, w1.regs, w1.value);
      w2.value == m && w2.regs.f.c == r.f.c
    ensures var w1 := ExecRmw(ROR, r, m);
      var w2 := ExecRmw(ROL, w1.regs, w1.value);
      w2.value == m && w2.regs.f.c == r.f.c
  {
    RolThenRor(r, m);
    RorThenRol(r, m);
  }

  lemma RolThenRor(r: Regs, m: bv8)
    ensures var w1 := Rol(r, m);
      var w2 := Ror(w1.regs, w1.value);
      w2.value == m && w2.regs.f.c == r.f.c
  {
  }

  lemma RorThenRol(r: Regs, m: bv8)
    ensures var w1 := Ror(r, m);
      var w2 := Rol(w1.regs, w1.value);
      w2.value == m && w2.regs.f.c == r.f.c
  {
  }

  /** INC and DEC undo each other on the memory operand. */
  lemma IncDecInverse(r: Regs, m: bv8)
    ensures ExecRmw(DEC, ExecRmw(INC, r, m).regs, ExecRmw(INC, r, m).value).value == m
    ensures ExecRmw(INC, ExecRmw(DEC, r, m).regs, ExecRmw(DEC, r, m).value).value == m
  {
  }

  /** The eight branches come in complementary pairs, one per flag. */
  lemma BranchPairs(r: Regs)
    ensures Taken(BCC, r) == !Taken(BCS, r) && Taken(BNE, r) == !Taken(BEQ, r)
    ensures Taken(BPL, r) == !Taken(BMI, r) && Taken(BVC, r) == !Taken(BVS, r)
    ensures Taken(BCS, r) == r.f.c && Taken(BEQ, r) == r.f.z
    ensures Taken(BMI, r) == r.f.n && Taken(BVS, r) == r.f.v
  {
  }
}
