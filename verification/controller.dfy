/** The standard controller on port 1 (covnes/src/nes/io.rs,
    `SingleStandardController`): a latch line from the console and an 8-bit
    shift register read one button per access. Polling the physical buttons
    is input from outside, so it is a parameter of each operation. */
module Controller {
  import opened Common

  /** Button masks, in the order the shift register reports them. */
  const ButtonA: bv8 := 0x01
  const ButtonB: bv8 := 0x02
  const ButtonSelect: bv8 := 0x04
  const ButtonStart: bv8 := 0x08
  const ButtonUp: bv8 := 0x10
  const ButtonDown: bv8 := 0x20
  const ButtonLeft: bv8 := 0x40
  const ButtonRight: bv8 := 0x80

  /** Data line D0 of a controller port read; the empty set is 0. */
  const D0: bv8 := 0x01

  datatype Controller = Controller(currentlyHigh: bool, latch: bv8)

  const PowerOn := Controller(false, 0)

  /** The buttons as latched: of UP+DOWN only UP, of LEFT+RIGHT only LEFT. */
  function Sanitize(buttons: bv8): (b: bv8)
    ensures b & (ButtonUp | ButtonDown) != (ButtonUp | ButtonDown)
    ensures b & (ButtonLeft | ButtonRight) != (ButtonLeft | ButtonRight)
    ensures b & 0x5F == buttons & 0x5F
    ensures b & ButtonDown == (if buttons & (ButtonUp | ButtonDown) == ButtonUp | ButtonDown then 0 else buttons & ButtonDown)
    ensures b & ButtonRight == (if buttons & (ButtonLeft | ButtonRight) == ButtonLeft | ButtonRight then 0 else buttons & ButtonRight)
  {
    var b1 := if buttons & (ButtonUp | ButtonDown) == ButtonUp | ButtonDown then buttons & !ButtonDown else buttons;
    if b1 & (ButtonLeft | ButtonRight) == ButtonLeft | ButtonRight then b1 & !ButtonRight else b1
  }

  /** Sanitizing twice changes nothing more. */
  lemma SanitizeIdempotent(buttons: bv8)
    ensures Sanitize(Sanitize(buttons)) == Sanitize(buttons)
  {
  }

  /** A change of the latch line; on the high-to-low edge the buttons polled
      at that moment are sanitized and stored in the shift register. */
  function LatchChange(c: Controller, value: bool, polled: bv8): (r: Controller)
    ensures r.currentlyHigh == value
    ensures value ==> r.latch == c.latch
    ensures !value ==> r.latch == Sanitize(polled)
  {
    if !value then Controller(false, Sanitize(polled)) else c.(currentlyHigh := true)
  }

  /** A read of port 1 and the controller after it. */
  datatype PortRead = PortRead(lines: bv8, ctrl: Controller)

  /** While the latch is high a read reports the live A button and shifts
      nothing; otherwise it reports bit 0 and shifts right, filling with 1. */
  function Port1Read(c: Controller, polled: bv8): (r: PortRead)
    ensures r.lines == 0 || r.lines == D0
    ensures c.currentlyHigh ==> r == PortRead(if polled & ButtonA == ButtonA then D0 else 0, c)
    ensures !c.currentlyHigh ==> (r.lines == D0 <==> Bit(c.latch, 0))
    ensures !c.currentlyHigh ==> r.ctrl == c.(latch := r.ctrl.latch) && Bit(r.ctrl.latch, 7)
  {
    var bit := if c.currentlyHigh then polled & ButtonA == ButtonA else c.latch & 1 == 1;
    var c' := if c.currentlyHigh then c else c.(latch := (c.latch >> 1) | 0x80);
    PortRead(if bit then D0 else 0, c')
  }

  /** Port 2 has nothing connected. */
  function Port2Read(c: Controller): (lines: bv8)
    ensures lines == 0
  {
    0
  }

  /** `n` port-1 reads with the latch low: the bits reported, and the
      controller afterwards. */
  function Reads(c: Controller, n: nat): (r: (seq<bool>, Controller))
    requires !c.currentlyHigh
    ensures |r.0| == n && !r.1.currentlyHigh
  {
    if n == 0 then ([], c)
    else
      var (bits, c') := Reads(c, n - 1);
      var read := Port1Read(c', 0);
      (bits + [read.lines == D0], read.ctrl)
  }

  /** The shift register after `k` reads of a latched byte: the unread bits
      at the bottom, ones shifted in at the top. */
  function Shifted(latch: bv8, k: nat): bv8
    requires k <= 8
  {
    if k == 8 then 0xFF else (latch >> k) | !(0xFF >> k)
  }

  lemma ShiftStep(latch: bv8, k: nat)
    requires k < 8
    ensures Shifted(latch, k) & 1 == 1 <==> Bit(latch, k)
    ensures (Shifted(latch, k) >> 1) | 0x80 == Shifted(latch, k + 1)
  {
  }

  /** The first eight reads after latching report the latched buttons in
      the order A, B, Select, Start, Up, Down, Left, Right. */
  lemma {:induction false} ReadsReportLatch(c: Controller, n: nat)
    requires !c.currentlyHigh && n <= 8
    ensures Reads(c, n).1.latch == Shifted(c.latch, n)
    ensures forall i :: 0 <= i < n ==> Reads(c, n).0[i] == Bit(c.latch, i)
  {
    if n > 0 {
      var prev := Reads(c, n - 1);
      var read := Port1Read(prev.1, 0);
      assert Reads(c, n) == (prev.0 + [read.lines == D0], read.ctrl);
      ReadsReportLatch(c, n - 1);
      ReadStep(prev.1, c.latch, n - 1);
      forall i | 0 <= i < n
        ensures Reads(c, n).0[i] == Bit(c.latch, i)
      {
        if i < n - 1 {
          assert Reads(c, n).0[i] == prev.0[i];
        }
      }
    }
  }

  /** A read with k latched bits already out reports bit k and shifts one
      more out. */
  lemma ReadStep(c: Controller, latch: bv8, k: nat)
    requires !c.currentlyHigh && k < 8 && c.latch == Shifted(latch, k)
    ensures Port1Read(c, 0).lines == D0 <==> Bit(latch, k)
    ensures Port1Read(c, 0).ctrl.latch == Shifted(latch, k + 1)
  {
    ShiftStep(latch, k);
  }

  /** Once the eight buttons are out, every further read reports 1. */
  lemma ExhaustedReadsOne(c: Controller, polled: bv8)
    requires !c.currentlyHigh && c.latch == Shifted(c.latch, 8)
    ensures Port1Read(c, polled) == PortRead(D0, c)
  {
  }

  /** Latching then reading eight times reports the sanitized buttons. */
  lemma LatchThenRead(c: Controller, polled: bv8)
    ensures var bits := Reads(LatchChange(c, false, polled), 8).0;
            forall i :: 0 <= i < 8 ==> bits[i] == Bit(Sanitize(polled), i)
    ensures Reads(LatchChange(c, false, polled), 8).1.latch == 0xFF
  {
    ReadsReportLatch(LatchChange(c, false, polled), 8);
  }
}
