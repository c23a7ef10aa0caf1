/** The prototype core (src/cpu.rs) run against a flat 64K memory, and its
    BRK and PHP sequences as bus traces. */
module ProtoTrace {
  import opened Common
  import opened ProtoCpu
  import Cpu6502
  import CpuTrace

  type Mem = CpuTrace.Mem
  type Event = CpuTrace.Event

  datatype Cycled = Cycled(next: Next, mem: Mem, event: Event)

  datatype Trace = Trace(next: Next, mem: Mem, events: seq<Event>)

  /** One cycle against flat memory. */
  function Tick(c: Cpu, mem: Mem): Cycled {
    var req := Request(c);
    var d := if req.ReadAt? then mem(req.addr) else 0;
    Cycled(Step(c, d), if req.WriteAt? then CpuTrace.Store(mem, req.addr, req.value) else mem,
           match req
           case NoAccess => CpuTrace.Idle
           case ReadAt(a) => CpuTrace.Rd(a, d)
           case WriteAt(a, v) => CpuTrace.Wr(a, v))
  }

  /** Up to `n` cycles of a machine whose single cycle is `tick`; a panic
      ends the run after the cycle that raised it. */
  function RunWith(tick: (Cpu, Mem) -> Cycled, c: Cpu, mem: Mem, n: nat): Trace
    decreases n
  {
    if n == 0 then Trace(Continue(c), mem, [])
    else
      var t := tick(c, mem);
      match t.next
      case IllegalOpcode(_) => Trace(t.next, t.mem, [t.event])
      case Continue(c') =>
        var rest := RunWith(tick, c', t.mem, n - 1);
        Trace(rest.next, rest.mem, [t.event] + rest.events)
  }

  /** Up to `n` cycles of the prototype against flat memory. */
  function Run(c: Cpu, mem: Mem, n: nat): Trace {
    RunWith(Tick, c, mem, n)
  }

  /** A run that stops in a running CPU followed by a run from there is one
      run of the combined length. */
  lemma {:induction false} RunAppend(tick: (Cpu, Mem) -> Cycled, c0: Cpu, m0: Mem, n: nat, c1: Cpu, m1: Mem, es: seq<Event>, k: nat)
    requires RunWith(tick, c0, m0, n) == Trace(Continue(c1), m1, es)
    ensures RunWith(tick, c0, m0, n + k)
            == Trace(RunWith(tick, c1, m1, k).next, RunWith(tick, c1, m1, k).mem, es + RunWith(tick, c1, m1, k).events)
    decreases n
  {
    if n > 0 {
      match tick(c0, m0).next
      case IllegalOpcode(_) =>
      case Continue(c') =>
        RunAppend(tick, c', tick(c0, m0).mem, n - 1, c1, m1, es[1..], k);
        assert [tick(c0, m0).event] + (es[1..] + RunWith(tick, c1, m1, k).events) == es + RunWith(tick, c1, m1, k).events;
    } else {
      assert es + RunWith(tick, c1, m1, k).events == RunWith(tick, c1, m1, k).events;
    }
  }

  lemma Chain2(tick: (Cpu, Mem) -> Cycled, c0: Cpu, m0: Mem, e0: Event, c1: Cpu, m1: Mem, e1: Event, c2: Cpu, m2: Mem)
    requires tick(c0, m0) == Cycled(Continue(c1), m1, e0)
    requires tick(c1, m1) == Cycled(Continue(c2), m2, e1)
    ensures RunWith(tick, c0, m0, 2) == Trace(Continue(c2), m2, [e0, e1])
  {
    assert RunWith(tick, c1, m1, 1) == Trace(Continue(c2), m2, [e1]);
  }

  lemma Chain3(tick: (Cpu, Mem) -> Cycled, c0: Cpu, m0: Mem, e0: Event, c1: Cpu, m1: Mem, e1: Event,
               c2: Cpu, m2: Mem, e2: Event, c3: Cpu, m3: Mem)
    requires tick(c0, m0) == Cycled(Continue(c1), m1, e0)
    requires tick(c1, m1) == Cycled(Continue(c2), m2, e1)
    requires tick(c2, m2) == Cycled(Continue(c3), m3, e2)
    ensures RunWith(tick, c0, m0, 3) == Trace(Continue(c3), m3, [e0, e1, e2])
  {
    Chain2(tick, c1, m1, e1, c2, m2, e2, c3, m3);
  }

  lemma TickRead(c: Cpu, mem: Mem, a: bv16, c': Cpu)
    requires c.state != FetchOpcode && Request(c) == Cpu6502.ReadAt(a) && After(c, mem(a)) == c'
    ensures Tick(c, mem) == Cycled(Continue(c'), mem, CpuTrace.Rd(a, mem(a)))
  {
    assert Step(c, mem(a)) == Continue(After(c, mem(a)));
  }

  lemma TickWrite(c: Cpu, mem: Mem, a: bv16, v: bv8, c': Cpu)
    requires c.state != FetchOpcode && Request(c) == Cpu6502.WriteAt(a, v) && After(c, 0) == c'
    ensures Tick(c, mem) == Cycled(Continue(c'), CpuTrace.Store(mem, a, v), CpuTrace.Wr(a, v))
  {
    assert Step(c, 0) == Continue(After(c, 0));
  }

  lemma TickIdle(c: Cpu, mem: Mem, c': Cpu)
    requires c.state != FetchOpcode && Request(c) == Cpu6502.NoAccess && After(c, 0) == c'
    ensures Tick(c, mem) == Cycled(Continue(c'), mem, CpuTrace.Idle)
  {
    assert Step(c, 0) == Continue(After(c, 0));
  }

  // ---------------------------------------------------------------------
  // BRK

  /** Opcode 0 starts the BRK sequence. */
  lemma DecodeBrk()
    ensures Decode(0x00) == Some(BRK)
  {
  }

  lemma FetchBrk(c: Cpu, mem: Mem)
    requires c.state == FetchOpcode && mem(c.pc) == 0
    ensures Tick(c, mem) == Cycled(Continue(c.(pc := c.pc + 1, state := BRK)), mem, CpuTrace.Rd(c.pc, 0))
  {
    DecodeBrk();
  }

  /** BRK's second cycle skips the signature byte without a bus access. */
  lemma Brk1(c: Cpu, mem: Mem)
    requires c.state == BRK
    ensures Tick(c, mem) == Cycled(Continue(c.(pc := c.pc + 1, state := BRK2)), mem, CpuTrace.Idle)
  {
    assert After(c, 0) == c.(pc := c.pc + 1, state := BRK2);
    TickIdle(c, mem, c.(pc := c.pc + 1, state := BRK2));
  }

  lemma Brk2(c: Cpu, mem: Mem)
    requires c.state == BRK2
    ensures var a := Cpu6502.Stack(c.s);
            Tick(c, mem) == Cycled(Continue(c.(s := c.s - 1, state := BRK3)), CpuTrace.Store(mem, a, Hi(c.pc)), CpuTrace.Wr(a, Hi(c.pc)))
  {
    assert After(c, 0) == c.(s := c.s - 1, state := BRK3);
    TickWrite(c, mem, Cpu6502.Stack(c.s), Hi(c.pc), c.(s := c.s - 1, state := BRK3));
  }

  lemma Brk3(c: Cpu, mem: Mem)
    requires c.state == BRK3
    ensures var a := Cpu6502.Stack(c.s);
            Tick(c, mem) == Cycled(Continue(c.(s := c.s - 1, state := BRK4)), CpuTrace.Store(mem, a, Lo(c.pc)), CpuTrace.Wr(a, Lo(c.pc)))
  {
    assert After(c, 0) == c.(s := c.s - 1, state := BRK4);
    TickWrite(c, mem, Cpu6502.Stack(c.s), Lo(c.pc), c.(s := c.s - 1, state := BRK4));
  }

  /** The status byte goes on the stack as it is. */
  lemma Brk4(c: Cpu, mem: Mem)
    requires c.state == BRK4
    ensures var a := Cpu6502.Stack(c.s);
            Tick(c, mem) == Cycled(Continue(c.(s := c.s - 1, state := BRK5)), CpuTrace.Store(mem, a, c.p), CpuTrace.Wr(a, c.p))
  {
    assert After(c, 0) == c.(s := c.s - 1, state := BRK5);
    TickWrite(c, mem, Cpu6502.Stack(c.s), c.p, c.(s := c.s - 1, state := BRK5));
  }

  lemma Brk5(c: Cpu, mem: Mem)
    requires c.state == BRK5
    ensures Tick(c, mem) == Cycled(Continue(c.(state := BRK6(mem(0xFFFE)))), mem, CpuTrace.Rd(0xFFFE, mem(0xFFFE)))
  {
    assert After(c, mem(0xFFFE)) == c.(state := BRK6(mem(0xFFFE)));
    TickRead(c, mem, 0xFFFE, c.(state := BRK6(mem(0xFFFE))));
  }

  /** The last cycle loads the high byte of the vector; the flags, I
      included, are left as they were. */
  lemma Brk6(c: Cpu, mem: Mem)
    requires c.state.BRK6?
    ensures Tick(c, mem) == Cycled(Continue(c.(pc := Word(mem(0xFFFF), c.state.low), state := FetchOpcode)), mem, CpuTrace.Rd(0xFFFF, mem(0xFFFF)))
  {
    var c' := c.(pc := Word(mem(0xFFFF), c.state.low), state := FetchOpcode);
    assert After(c, mem(0xFFFF)) == c';
    TickRead(c, mem, 0xFFFF, c');
  }

  /** Runs of two, three and two cycles back to back are one run of
      seven. */
  lemma Join232(tick: (Cpu, Mem) -> Cycled, c0: Cpu, m0: Mem, e0: Event, e1: Event, c2: Cpu, m2: Mem,
                e2: Event, e3: Event, e4: Event, c5: Cpu, m5: Mem, e5: Event, e6: Event, c7: Cpu, m7: Mem)
    requires RunWith(tick, c0, m0, 2) == Trace(Continue(c2), m2, [e0, e1])
    requires RunWith(tick, c2, m2, 3) == Trace(Continue(c5), m5, [e2, e3, e4])
    requires RunWith(tick, c5, m5, 2) == Trace(Continue(c7), m7, [e5, e6])
    ensures RunWith(tick, c0, m0, 7) == Trace(Continue(c7), m7, [e0, e1, e2, e3, e4, e5, e6])
  {
    RunAppend(tick, c0, m0, 2, c2, m2, [e0, e1], 3);
    RunAppend(tick, c0, m0, 5, c5, m5, [e0, e1] + [e2, e3, e4], 2);
    assert [e0, e1] + [e2, e3, e4] + [e5, e6] == [e0, e1, e2, e3, e4, e5, e6];
  }

  /** The opcode read and the signature cycle. */
  lemma BrkStart(c: Cpu, mem: Mem)
    requires c.state == FetchOpcode && mem(c.pc) == 0
    ensures Run(c, mem, 2) == Trace(Continue(c.(pc := c.pc + 2, state := BRK2)), mem, [CpuTrace.Rd(c.pc, 0), CpuTrace.Idle])
  {
    var c1 := c.(pc := c.pc + 1, state := BRK);
    var c2 := c.(pc := c.pc + 2, state := BRK2);
    FetchBrk(c, mem);
    Brk1(c1, mem);
    Chain2(Tick, c, mem, CpuTrace.Rd(c.pc, 0), c1, mem, CpuTrace.Idle, c2, mem);
  }

  /** The memory after BRK's three pushes. */
  function PushedBrk(c: Cpu, mem: Mem): Mem {
    var m1 := CpuTrace.Store(mem, Cpu6502.Stack(c.s), Hi(c.pc));
    var m2 := CpuTrace.Store(m1, Cpu6502.Stack(c.s - 1), Lo(c.pc));
    CpuTrace.Store(m2, Cpu6502.Stack(c.s - 2), c.p)
  }

  /** The three pushes: return address high byte, low byte, status. */
  lemma BrkPushes(c: Cpu, mem: Mem)
    requires c.state == BRK2
    ensures Run(c, mem, 3) ==
              Trace(Continue(c.(s := c.s - 3, state := BRK5)), PushedBrk(c, mem),
                    [CpuTrace.Wr(Cpu6502.Stack(c.s), Hi(c.pc)),
                     CpuTrace.Wr(Cpu6502.Stack(c.s - 1), Lo(c.pc)),
                     CpuTrace.Wr(Cpu6502.Stack(c.s - 2), c.p)])
  {
    var m1 := CpuTrace.Store(mem, Cpu6502.Stack(c.s), Hi(c.pc));
    var m2 := CpuTrace.Store(m1, Cpu6502.Stack(c.s - 1), Lo(c.pc));
    var m3 := PushedBrk(c, mem);
    var c3 := c.(s := c.s - 1, state := BRK3);
    var c4 := c.(s := c.s - 2, state := BRK4);
    var c5 := c.(s := c.s - 3, state := BRK5);
    Brk2(c, mem);
    Brk3(c3, m1);
    Brk4(c4, m2);
    var e2 := CpuTrace.Wr(Cpu6502.Stack(c.s), Hi(c.pc));
    var e3 := CpuTrace.Wr(Cpu6502.Stack(c.s - 1), Lo(c.pc));
    var e4 := CpuTrace.Wr(Cpu6502.Stack(c.s - 2), c.p);
    Chain3(Tick, c, mem, e2, c3, m1, e3, c4, m2, e4, c5, m3);
  }

  /** The vector read: low byte from FFFE, then high byte from FFFF. */
  lemma BrkVector(c: Cpu, mem: Mem)
    requires c.state == BRK5
    ensures Run(c, mem, 2) ==
              Trace(Continue(c.(pc := Word(mem(0xFFFF), mem(0xFFFE)), state := FetchOpcode)), mem,
                    [CpuTrace.Rd(0xFFFE, mem(0xFFFE)), CpuTrace.Rd(0xFFFF, mem(0xFFFF))])
  {
    var c6 := c.(state := BRK6(mem(0xFFFE)));
    var c7 := c.(pc := Word(mem(0xFFFF), mem(0xFFFE)), state := FetchOpcode);
    Brk5(c, mem);
    Brk6(c6, mem);
    Chain2(Tick, c, mem, CpuTrace.Rd(0xFFFE, mem(0xFFFE)), c6, mem, CpuTrace.Rd(0xFFFF, mem(0xFFFF)), c7, mem);
  }

  /** BRK from an opcode fetch, cycle by cycle: the opcode read, the idle
      signature cycle, the return address (that of the byte after the
      signature) and the unchanged status byte pushed, then the vector at
      FFFE/FFFF read. S ends three lower and the flags, I included, as they
      were. */
  lemma BrkSequence(c: Cpu, mem: Mem)
    requires c.state == FetchOpcode && mem(c.pc) == 0
    ensures var c2 := c.(pc := c.pc + 2, state := BRK2);
            var m := PushedBrk(c2, mem);
            Run(c, mem, 7) ==
              Trace(Continue(c.(pc := Word(m(0xFFFF), m(0xFFFE)), s := c.s - 3)), m,
                    [CpuTrace.Rd(c.pc, 0), CpuTrace.Idle,
                     CpuTrace.Wr(Cpu6502.Stack(c.s), Hi(c.pc + 2)),
                     CpuTrace.Wr(Cpu6502.Stack(c.s - 1), Lo(c.pc + 2)),
                     CpuTrace.Wr(Cpu6502.Stack(c.s - 2), c.p),
                     CpuTrace.Rd(0xFFFE, m(0xFFFE)), CpuTrace.Rd(0xFFFF, m(0xFFFF))])
  {
    var c2 := c.(pc := c.pc + 2, state := BRK2);
    var m := PushedBrk(c2, mem);
    var c5 := c2.(s := c.s - 3, state := BRK5);
    BrkStart(c, mem);
    BrkPushes(c2, mem);
    BrkVector(c5, m);
    Join232(Tick, c, mem, CpuTrace.Rd(c.pc, 0), CpuTrace.Idle, c2, mem,
            CpuTrace.Wr(Cpu6502.Stack(c.s), Hi(c.pc + 2)), CpuTrace.Wr(Cpu6502.Stack(c.s - 1), Lo(c.pc + 2)),
            CpuTrace.Wr(Cpu6502.Stack(c.s - 2), c.p), c5, m,
            CpuTrace.Rd(0xFFFE, m(0xFFFE)), CpuTrace.Rd(0xFFFF, m(0xFFFF)),
            c.(pc := Word(m(0xFFFF), m(0xFFFE)), s := c.s - 3), m);
  }
}
