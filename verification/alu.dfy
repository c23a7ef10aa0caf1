/** The 6502 arithmetic and logic shared by both CPU cores: what each read,
    read-modify-write, write, branch and implied operation does to the
    registers once its operand is known. The later core
    (covnes/src/cpu.rs) and the prototype (src/cpu.rs) carry the same
    execute code; the prototype only lacks the undocumented immediate
    operations and SHX/SHY. */
module Alu {
  import opened Common

  /** The six status flags. Bits 4 and 5 of the status byte are not flags:
      they exist only in the byte pushed on the stack. */
  datatype Flags = Flags(n: bool, v: bool, d: bool, i: bool, z: bool, c: bool)

  /** The programmer-visible registers except the program counter. */
  datatype Regs = Regs(a: bv8, x: bv8, y: bv8, s: bv8, f: Flags)

  const N: bv8 := 0x80
  const V: bv8 := 0x40
  const D: bv8 := 0x08
  const I: bv8 := 0x04
  const Z: bv8 := 0x02
  const C: bv8 := 0x01

  /** The status byte of a flag set (bits 4 and 5 clear). */
  function Pack(f: Flags): (p: bv8)
    ensures p & 0x30 == 0
  {
    (if f.n then N else 0) | (if f.v then V else 0) | (if f.d then D else 0)
    | (if f.i then I else 0) | (if f.z then Z else 0) | (if f.c then C else 0)
  }

  /** The flags held in a status byte; bits 4 and 5 are dropped, as
      `Flags::from_bits_truncate` does. */
  function Unpack(p: bv8): Flags {
    Flags(p & N != 0, p & V != 0, p & D != 0, p & I != 0, p & Z != 0, p & C != 0)
  }

  datatype ReadOp = ADC | AND | BIT | CMP | CPX | CPY | EOR | LDA | LDX | LDY | ORA | SBC
                  | NOP | LAX | ANC | ALR | ARR | AXS
  datatype ReadWriteOp = ASL | DEC | INC | LSR | ROL | ROR | DCP | ISC | SLO | RLA | SRE | RRA
  datatype WriteOp = STA | STX | STY | SAX
  datatype BranchOp = BCC | BCS | BEQ | BMI | BNE | BPL | BVC | BVS
  datatype ImpliedOp = CLC | CLD | CLI | CLV | DEX | DEY | INX | INY | INop | SEC | SED | SEI
                     | TAX | TAY | TSX | TXA | TXS | TYA
  datatype ShOp = SHY | SHX

  /** Result of a read-modify-write operation: the registers after it and the
      value written back to memory. */
  datatype Rmw = Rmw(regs: Regs, value: bv8)

  function SetZN(r: Regs, v: bv8): Regs {
    r.(f := r.f.(z := v == 0, n := v >> 7 == 1))
  }

  function SetC(r: Regs, on: bool): Regs {
    r.(f := r.f.(c := on))
  }

  function SetV(r: Regs, on: bool): Regs {
    r.(f := r.f.(v := on))
  }

  function Carry(r: Regs): bv8 {
    if r.f.c then 1 else 0
  }

  /** Add with carry; the sum is formed in 16 bits so that the carry out is
      bit 8. */
  /** The 16-bit sum of accumulator, operand and carry in. */
  function AdcSum(a: bv8, m: bv8, c: bv8): bv16 {
    (a as bv16) + (m as bv16) + (c as bv16)
  }

  /** Signed overflow: the operands agree in sign and the result does not. */
  function Overflowed(a: bv8, m: bv8, result: bv8): bool {
    (!(a ^ m) & (a ^ result) & 0x80) == 0x80
  }

  function Adc(r: Regs, m: bv8): Regs {
    var sum := AdcSum(r.a, m, Carry(r));
    var result := (sum & 0xFF) as bv8;
    SetZN(SetV(SetC(r, sum > 0xFF), Overflowed(r.a, m, result)).(a := result), result)
  }

  /** Compare a register with an operand: the flags of `reg - m` with the
      borrow inverted into carry (`overflowing_sub`). */
  function Compare(r: Regs, reg: bv8, m: bv8): Regs {
    SetC(SetZN(r, reg - m), !(reg < m))
  }

  function And(r: Regs, m: bv8): Regs {
    SetZN(r.(a := r.a & m), r.a & m)
  }

  function Ora(r: Regs, m: bv8): Regs {
    SetZN(r, r.a | m).(a := r.a | m)
  }

  function Eor(r: Regs, m: bv8): Regs {
    SetZN(r, r.a ^ m).(a := r.a ^ m)
  }

  function Asl(r: Regs, m: bv8): Rmw {
    var res := m << 1;
    Rmw(SetZN(SetC(r, m >> 7 == 1), res), res)
  }

  function Lsr(r: Regs, m: bv8): Rmw {
    var res := m >> 1;
    Rmw(SetZN(SetC(r, m & 1 == 1), res), res)
  }

  function Rol(r: Regs, m: bv8): Rmw {
    var res := (m << 1) | Carry(r);
    Rmw(SetZN(SetC(r, m >> 7 == 1), res), res)
  }

  function Ror(r: Regs, m: bv8): Rmw {
    var res := (m >> 1) | (Carry(r) << 7);
    Rmw(SetZN(SetC(r, m & 1 == 1), res), res)
  }

  function ExecRead(op: ReadOp, r: Regs, m: bv8): Regs {
    match op
    case ADC => Adc(r, m)
    case AND => And(r, m)
    case BIT =>
      var r1 := SetZN(r, r.a & m);
      SetV(r1.(f := r1.f.(n := m >> 7 == 1)), (m >> 6) & 1 == 1)
    case CMP => Compare(r, r.a, m)
    case CPX => Compare(r, r.x, m)
    case CPY => Compare(r, r.y, m)
    case EOR => Eor(r, m)
    case LDA => SetZN(r.(a := m), m)
    case LDX => SetZN(r.(x := m), m)
    case LDY => SetZN(r.(y := m), m)
    case ORA => Ora(r, m)
    case SBC => Adc(r, !m)
    case NOP => r
    case LAX => SetZN(r.(a := m, x := m), m)
    case ANC =>
      var r1 := And(r, m);
      SetC(r1, r1.f.n)
    case ALR =>
      var r1 := And(r, m);
      var w := Lsr(r1, r1.a);
      w.regs.(a := w.value)
    case ARR =>
      var r1 := And(r, m);
      var w := Ror(r1, r1.a);
      var res := w.value;
      SetV(SetC(w.regs, res & 0x40 == 0x40), ((res >> 6) ^ (res >> 5)) & 1 == 1).(a := res)
    case AXS =>
      var d := (r.a & r.x) - m;
      SetC(SetZN(r, d), !((r.a & r.x) < m)).(x := d)
  }

  function ExecRmw(op: ReadWriteOp, r: Regs, m: bv8): Rmw {
    match op
    case ASL => Asl(r, m)
    case DEC => Rmw(SetZN(r, m - 1), m - 1)
    case INC => Rmw(SetZN(r, m + 1), m + 1)
    case LSR => Lsr(r, m)
    case ROL => Rol(r, m)
    case ROR => Ror(r, m)
    case DCP => Rmw(Compare(SetZN(r, m - 1), r.a, m - 1), m - 1)
    case ISC => Rmw(Adc(SetZN(r, m + 1), !(m + 1)), m + 1)
    case SLO =>
      var w := Asl(r, m);
      Rmw(Ora(w.regs, w.value), w.value)
    case RLA =>
      var w := Rol(r, m);
      Rmw(And(w.regs, w.value), w.value)
    case SRE =>
      var w := Lsr(r, m);
      Rmw(Eor(w.regs, w.value), w.value)
    case RRA =>
      var w := Ror(r, m);
      Rmw(Adc(w.regs, w.value), w.value)
  }

  function ExecWrite(op: WriteOp, r: Regs): bv8 {
    match op
    case STA => r.a
    case STX => r.x
    case STY => r.y
    case SAX => r.a & r.x
  }

  /** SHY/SHX store the index register ANDed with a high address byte. */
  function ExecSh(op: ShOp, r: Regs, h: bv8): bv8 {
    match op
    case SHY => r.y & h
    case SHX => r.x & h
  }

  function Taken(op: BranchOp, r: Regs): bool {
    match op
    case BCC => !r.f.c
    case BCS => r.f.c
    case BEQ => r.f.z
    case BMI => r.f.n
    case BNE => !r.f.z
    case BPL => !r.f.n
    case BVC => !r.f.v
    case BVS => r.f.v
  }

  function ExecImplied(op: ImpliedOp, r: Regs): Regs {
    match op
    case CLC => SetC(r, false)
    case CLD => r.(f := r.f.(d := false))
    case CLI => r.(f := r.f.(i := false))
    case CLV => SetV(r, false)
    case DEX => SetZN(r, r.x - 1).(x := r.x - 1)
    case DEY => SetZN(r, r.y - 1).(y := r.y - 1)
    case INX => SetZN(r, r.x + 1).(x := r.x + 1)
    case INY => SetZN(r, r.y + 1).(y := r.y + 1)
    case INop => r
    case SEC => SetC(r, true)
    case SED => r.(f := r.f.(d := true))
    case SEI => r.(f := r.f.(i := true))
    case TAX => SetZN(r, r.a).(x := r.a)
    case TAY => SetZN(r, r.a).(y := r.a)
    case TSX => SetZN(r, r.s).(x := r.s)
    case TXA => SetZN(r, r.x).(a := r.x)
    case TXS => r.(s := r.x)
    case TYA => SetZN(r, r.y).(a := r.y)
  }
}
