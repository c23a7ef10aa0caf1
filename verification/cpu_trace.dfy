/** The covnes CPU (covnes/src/cpu.rs) run against a flat 64K memory with no
    side effects: each cycle becomes a bus event, and a run of cycles a
    trace. Runs are defined for any single-cycle function, so that
    chaining cycles into a trace is proved once, for all machines. */
module CpuTrace {
  import opened Common
  import opened Alu
  import opened Cpu6502

  type Mem = bv16 -> bv8

  /** What one cycle did on the bus. `Idle` marks a cycle in which this
      core performs no access. */
  datatype Event = Rd(addr: bv16, value: bv8) | Wr(addr: bv16, value: bv8) | Idle

  /** One cycle against memory: the CPU after it, the memory after it and
      its bus event. */
  datatype Cycled = Cycled(next: Next, mem: Mem, event: Event)

  /** Several cycles: one event per cycle, in order. */
  datatype Trace = Trace(next: Next, mem: Mem, events: seq<Event>)

  function Store(mem: Mem, addr: bv16, v: bv8): Mem {
    a => if a == addr then v else mem(a)
  }

  /** One cycle against flat memory. Nothing on this bus touches the
      interrupt lines, so the NMI line after the access is the one before. */
  function Tick(c: Cpu, mem: Mem): Cycled {
    var req := Request(c);
    var d := if req.ReadAt? then mem(req.addr) else 0;
    Cycled(Step(c, d, c.nmi), if req.WriteAt? then Store(mem, req.addr, req.value) else mem,
           match req
           case NoAccess => Idle
           case ReadAt(a) => Rd(a, d)
           case WriteAt(a, v) => Wr(a, v))
  }

  /** Up to `n` cycles of a machine whose single cycle is `tick`; a panic
      ends the run after the cycle that raised it. */
  function RunWith(tick: (Cpu, Mem) -> Cycled, c: Cpu, mem: Mem, n: nat): Trace
    decreases n
  {
    if n == 0 then Trace(Continue(c), mem, [])
    else
      var t := tick(c, mem);
      match t.next
      case IllegalOpcode(_) => Trace(t.next, t.mem, [t.event])
      case Continue(c') =>
        var rest := RunWith(tick, c', t.mem, n - 1);
        Trace(rest.next, rest.mem, [t.event] + rest.events)
  }

  /** Up to `n` cycles of the CPU against flat memory. */
  function Run(c: Cpu, mem: Mem, n: nat): Trace {
    RunWith(Tick, c, mem, n)
  }

  /** The interrupt lines at the end of a cycle in which nothing signalled. */
  function Settle(c: Cpu): Cpu {
    c.(nmi := Promote(c.nmi), irq := Promote(c.irq))
  }

  /** The CPU that a cycle other than an opcode fetch leads to on this bus. */
  function After(c: Cpu, d: bv8): Cpu {
    Cpu(NextPc(c, d), NextRegs(c, d), NextState(c, d, c.nmi), Promote(c.nmi), Promote(c.irq))
  }

  /** A path of cycles: from `cs[i]` with memory `ms[i]`, one cycle makes
      event `es[i]` and leads to `cs[i + 1]` with memory `ms[i + 1]`. */
  ghost predicate Path(tick: (Cpu, Mem) -> Cycled, cs: seq<Cpu>, ms: seq<Mem>, es: seq<Event>) {
    |cs| == |es| + 1 && |ms| == |es| + 1
    && forall i :: 0 <= i < |es| ==> tick(cs[i], ms[i]) == Cycled(Continue(cs[i + 1]), ms[i + 1], es[i])
  }

  /** Running along a path for its length yields exactly its events and
      ends where the path ends. */
  lemma {:induction false} RunAlongPath(tick: (Cpu, Mem) -> Cycled, cs: seq<Cpu>, ms: seq<Mem>, es: seq<Event>)
    requires Path(tick, cs, ms, es)
    ensures RunWith(tick, cs[0], ms[0], |es|) == Trace(Continue(cs[|es|]), ms[|es|], es)
    decreases |es|
  {
    if |es| > 0 {
      assert Path(tick, cs[1..], ms[1..], es[1..]) by {
        forall i | 0 <= i < |es| - 1
          ensures tick(cs[1..][i], ms[1..][i]) == Cycled(Continue(cs[1..][i + 1]), ms[1..][i + 1], es[1..][i])
        {
          assert tick(cs[i + 1], ms[i + 1]) == Cycled(Continue(cs[i + 2]), ms[i + 2], es[i + 1]);
        }
      }
      RunAlongPath(tick, cs[1..], ms[1..], es[1..]);
      assert [es[0]] + es[1..] == es;
    }
  }

  /** A cycle followed by a run is a run one cycle longer. */
  lemma RunCons(tick: (Cpu, Mem) -> Cycled, c0: Cpu, m0: Mem, e0: Event, c1: Cpu, m1: Mem, n: nat, t: Trace)
    requires tick(c0, m0) == Cycled(Continue(c1), m1, e0)
    requires RunWith(tick, c1, m1, n) == t
    ensures RunWith(tick, c0, m0, n + 1) == Trace(t.next, t.mem, [e0] + t.events)
  {
  }

  /** A run that stops in a running CPU followed by a run from there is one
      run of the combined length. */
  lemma {:induction false} RunAppend(tick: (Cpu, Mem) -> Cycled, c0: Cpu, m0: Mem, n: nat, c1: Cpu, m1: Mem, es: seq<Event>, k: nat)
    requires RunWith(tick, c0, m0, n) == Trace(Continue(c1), m1, es)
    ensures RunWith(tick, c0, m0, n + k)
            == Trace(RunWith(tick, c1, m1, k).next, RunWith(tick, c1, m1, k).mem, es + RunWith(tick, c1, m1, k).events)
    decreases n
  {
    if n > 0 {
      match tick(c0, m0).next
      case IllegalOpcode(_) =>
      case Continue(c') =>
        RunAppend(tick, c', tick(c0, m0).mem, n - 1, c1, m1, es[1..], k);
        assert [tick(c0, m0).event] + (es[1..] + RunWith(tick, c1, m1, k).events) == es + RunWith(tick, c1, m1, k).events;
    } else {
      assert es + RunWith(tick, c1, m1, k).events == RunWith(tick, c1, m1, k).events;
    }
  }

  lemma Chain2(tick: (Cpu, Mem) -> Cycled, c0: Cpu, m0: Mem, e0: Event, c1: Cpu, m1: Mem, e1: Event, c2: Cpu, m2: Mem)
    requires tick(c0, m0) == Cycled(Continue(c1), m1, e0)
    requires tick(c1, m1) == Cycled(Continue(c2), m2, e1)
    ensures RunWith(tick, c0, m0, 2) == Trace(Continue(c2), m2, [e0, e1])
  {
    RunAlongPath(tick, [c0, c1, c2], [m0, m1, m2], [e0, e1]);
  }

  lemma Chain3(tick: (Cpu, Mem) -> Cycled, c0: Cpu, m0: Mem, e0: Event, c1: Cpu, m1: Mem, e1: Event,
               c2: Cpu, m2: Mem, e2: Event, c3: Cpu, m3: Mem)
    requires tick(c0, m0) == Cycled(Continue(c1), m1, e0)
    requires tick(c1, m1) == Cycled(Continue(c2), m2, e1)
    requires tick(c2, m2) == Cycled(Continue(c3), m3, e2)
    ensures RunWith(tick, c0, m0, 3) == Trace(Continue(c3), m3, [e0, e1, e2])
  {
    RunAlongPath(tick, [c0, c1, c2, c3], [m0, m1, m2, m3], [e0, e1, e2]);
  }

  lemma Chain4(tick: (Cpu, Mem) -> Cycled, c0: Cpu, m0: Mem, e0: Event, c1: Cpu, m1: Mem, e1: Event, c2: Cpu, m2: Mem, e2: Event, c3: Cpu, m3: Mem, e3: Event, c4: Cpu, m4: Mem)
    requires tick(c0, m0) == Cycled(Continue(c1), m1, e0)
    requires tick(c1, m1) == Cycled(Continue(c2), m2, e1)
    requires tick(c2, m2) == Cycled(Continue(c3), m3, e2)
    requires tick(c3, m3) == Cycled(Continue(c4), m4, e3)
    ensures RunWith(tick, c0, m0, 4) == Trace(Continue(c4), m4, [e0, e1, e2, e3])
  {
    RunAlongPath(tick, [c0, c1, c2, c3, c4], [m0, m1, m2, m3, m4], [e0, e1, e2, e3]);
  }

  lemma Chain5(tick: (Cpu, Mem) -> Cycled, c0: Cpu, m0: Mem, e0: Event, c1: Cpu, m1: Mem, e1: Event, c2: Cpu, m2: Mem, e2: Event, c3: Cpu, m3: Mem, e3: Event, c4: Cpu, m4: Mem, e4: Event, c5: Cpu, m5: Mem)
    requires tick(c0, m0) == Cycled(Continue(c1), m1, e0)
    requires tick(c1, m1) == Cycled(Continue(c2), m2, e1)
    requires tick(c2, m2) == Cycled(Continue(c3), m3, e2)
    requires tick(c3, m3) == Cycled(Continue(c4), m4, e3)
    requires tick(c4, m4) == Cycled(Continue(c5), m5, e4)
    ensures RunWith(tick, c0, m0, 5) == Trace(Continue(c5), m5, [e0, e1, e2, e3, e4])
  {
    RunAlongPath(tick, [c0, c1, c2, c3, c4, c5], [m0, m1, m2, m3, m4, m5], [e0, e1, e2, e3, e4]);
  }

  lemma Chain6(tick: (Cpu, Mem) -> Cycled, c0: Cpu, m0: Mem, e0: Event, c1: Cpu, m1: Mem, e1: Event, c2: Cpu, m2: Mem, e2: Event, c3: Cpu, m3: Mem, e3: Event, c4: Cpu, m4: Mem, e4: Event, c5: Cpu, m5: Mem, e5: Event, c6: Cpu, m6: Mem)
    requires tick(c0, m0) == Cycled(Continue(c1), m1, e0)
    requires tick(c1, m1) == Cycled(Continue(c2), m2, e1)
    requires tick(c2, m2) == Cycled(Continue(c3), m3, e2)
    requires tick(c3, m3) == Cycled(Continue(c4), m4, e3)
    requires tick(c4, m4) == Cycled(Continue(c5), m5, e4)
    requires tick(c5, m5) == Cycled(Continue(c6), m6, e5)
    ensures RunWith(tick, c0, m0, 6) == Trace(Continue(c6), m6, [e0, e1, e2, e3, e4, e5])
  {
    RunAlongPath(tick, [c0, c1, c2, c3, c4, c5, c6], [m0, m1, m2, m3, m4, m5, m6], [e0, e1, e2, e3, e4, e5]);
  }

  lemma Chain7(tick: (Cpu, Mem) -> Cycled, c0: Cpu, m0: Mem, e0: Event, c1: Cpu, m1: Mem, e1: Event, c2: Cpu, m2: Mem, e2: Event, c3: Cpu, m3: Mem, e3: Event, c4: Cpu, m4: Mem, e4: Event, c5: Cpu, m5: Mem, e5: Event, c6: Cpu, m6: Mem, e6: Event, c7: Cpu, m7: Mem)
    requires tick(c0, m0) == Cycled(Continue(c1), m1, e0)
    requires tick(c1, m1) == Cycled(Continue(c2), m2, e1)
    requires tick(c2, m2) == Cycled(Continue(c3), m3, e2)
    requires tick(c3, m3) == Cycled(Continue(c4), m4, e3)
    requires tick(c4, m4) == Cycled(Continue(c5), m5, e4)
    requires tick(c5, m5) == Cycled(Continue(c6), m6, e5)
    requires tick(c6, m6) == Cycled(Continue(c7), m7, e6)
    ensures RunWith(tick, c0, m0, 7) == Trace(Continue(c7), m7, [e0, e1, e2, e3, e4, e5, e6])
  {
    RunAlongPath(tick, [c0, c1, c2, c3, c4, c5, c6, c7], [m0, m1, m2, m3, m4, m5, m6, m7], [e0, e1, e2, e3, e4, e5, e6]);
  }

  /** A reading cycle consumes the byte memory holds at the address and
      leaves memory alone. */
  lemma TickRead(c: Cpu, mem: Mem, a: bv16, c': Cpu)
    requires c.state != FetchOpcode && Request(c) == ReadAt(a) && After(c, mem(a)) == c'
    ensures Tick(c, mem) == Cycled(Continue(c'), mem, Rd(a, mem(a)))
  {
  }

  /** A writing cycle stores its value and consumes no data. */
  lemma TickWrite(c: Cpu, mem: Mem, a: bv16, v: bv8, c': Cpu)
    requires c.state != FetchOpcode && Request(c) == WriteAt(a, v) && After(c, 0) == c'
    ensures Tick(c, mem) == Cycled(Continue(c'), Store(mem, a, v), Wr(a, v))
  {
  }

  /** A cycle without access leaves memory alone. */
  lemma TickIdle(c: Cpu, mem: Mem, c': Cpu)
    requires c.state != FetchOpcode && Request(c) == NoAccess && After(c, 0) == c'
    ensures Tick(c, mem) == Cycled(Continue(c'), mem, Idle)
  {
  }

  /** Settling twice is settling once. */
  lemma SettleIdempotent(c: Cpu)
    ensures Settle(Settle(c)) == Settle(c)
  {
  }
}
