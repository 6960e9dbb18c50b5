// The serial transmitter (driver/snx_serial.c) as an abstract machine: a bounded
// byte queue, the transmit-interrupt enable, and software and hardware flow
// control.  Class SerialPort refines it with the ring buffer and the UART.

module SerialModel {

  // The ring of 4096 bytes holds at most 4095.
  const CAPACITY: nat := 4095

  datatype Tx = Tx(
    queue: seq<bv8>,      // bytes in the transmit ring
    sent: seq<bv8>,       // ring bytes written to the UART so far
    thri: bool,           // transmit interrupt enabled
    stopped: bool,        // tty->stopped
    hwStopped: bool,      // tty->hw_stopped
    ctsFlow: bool,        // CTS flow control in use
    xChar: bv8,           // pending flow-control character, 0 if none
    owed: nat)            // writes whose call to start is still to come

  datatype Op =
    | Fill(bytes: seq<bv8>)     // the locked part of write and put_char
    | Kick                      // the call to start that ends write, or flush_chars
    | Start                     // tty start: the core has cleared tty->stopped
    | Stop                      // tty stop: the core has set tty->stopped
    | Cts(up: bool)             // modem status interrupt: CTS changed
    | GotFlowChar(go: bool)     // XON or XOFF received
    | TxInterrupt(fifo: nat)    // transmitter ready
    | SendXChar(ch: bv8)
    | CancelXChar
    | SetFlow(rtscts: bool, was: bool)   // set_termios with CRTSCTS now / before
    | Rearm                     // empty interrupt on a SUN1699
    | Flush

  function Min(a: nat, b: nat): nat {
    if a <= b then a else b
  }

  function Free(s: Tx): nat
    requires |s.queue| <= CAPACITY
  {
    CAPACITY - |s.queue|
  }

  // The bytes of a write that fit.
  function Fitting(s: Tx, bytes: seq<bv8>): seq<bv8>
    requires |s.queue| <= CAPACITY
  {
    bytes[..Min(|bytes|, Free(s))]
  }

  // snx_ser_start
  function Started(s: Tx): Tx {
    if s.queue != [] && !s.stopped && !s.hwStopped then s.(thri := true) else s
  }

  // sunix_ser_transmit_chars; a fifo size of 0 still sends one byte.
  function Transmitted(s: Tx, fifo: nat): Tx {
    if s.xChar != 0 then s.(xChar := 0)
    else if s.queue == [] || s.stopped || s.hwStopped then s.(thri := false)
    else
      var n := Min(if fifo == 0 then 1 else fifo, |s.queue|);
      s.(queue := s.queue[n..], sent := s.sent + s.queue[..n])
  }

  // snx_ser_handle_cts_change
  function CtsChanged(s: Tx, up: bool): Tx {
    if !s.ctsFlow then s
    else if s.hwStopped && up then s.(hwStopped := false, thri := true)
    else if !s.hwStopped && !up then s.(hwStopped := true, thri := false)
    else s
  }

  // snx_ser_set_termios: turning CRTSCTS off lifts a hardware stop.
  function FlowSet(s: Tx, rtscts: bool, was: bool): Tx {
    var t := s.(ctsFlow := rtscts);
    if was && !rtscts then Started(t.(hwStopped := false)) else t
  }

  function Step(s: Tx, op: Op): Tx
    requires |s.queue| <= CAPACITY && (op.Kick? ==> s.owed > 0)
  {
    match op
    case Fill(bytes) => s.(queue := s.queue + Fitting(s, bytes), owed := s.owed + 1)
    case Kick => Started(s.(owed := s.owed - 1))
    case Start => Started(s.(stopped := false))
    case Stop => s.(stopped := true, thri := false)
    case Cts(up) => CtsChanged(s, up)
    case GotFlowChar(go) => s.(stopped := !go, thri := go)
    case TxInterrupt(fifo) => Transmitted(s, fifo)
    case SendXChar(ch) => s.(xChar := ch, thri := s.thri || ch != 0)
    case CancelXChar => s.(xChar := 0)
    case SetFlow(rtscts, was) => FlowSet(s, rtscts, was)
    case Rearm => s.(thri := true)
    case Flush => s.(queue := [])
  }

  // ---- The transmitter never stalls ----

  // Bytes waiting with nothing holding them back: the interrupt that will send
  // them is enabled, or a writer is about to enable it.
  predicate Live(s: Tx) {
    s.queue != [] && !s.stopped && !s.hwStopped ==> s.thri || s.owed > 0
  }

  predicate Inv(s: Tx) {
    |s.queue| <= CAPACITY && Live(s)
  }

  predicate EnabledRun(s: Tx, ops: seq<Op>)
    decreases |ops|
  {
    |s.queue| <= CAPACITY &&
    (ops == [] || ((ops[0].Kick? ==> s.owed > 0) && EnabledRun(Step(s, ops[0]), ops[1..])))
  }

  function Run(s: Tx, ops: seq<Op>): Tx
    requires EnabledRun(s, ops)
    decreases |ops|
  {
    if ops == [] then s else Run(Step(s, ops[0]), ops[1..])
  }

  lemma InvStep(s: Tx, op: Op)
    requires Inv(s) && (op.Kick? ==> s.owed > 0)
    ensures Inv(Step(s, op))
  {}

  // Over any run from a live state, in any order and with any number of writers
  // between their two halves.
  lemma {:induction false} NeverStalls(s: Tx, ops: seq<Op>)
    requires Inv(s) && EnabledRun(s, ops)
    ensures Inv(Run(s, ops))
    ensures var t := Run(s, ops);
            t.owed == 0 && t.queue != [] && !t.stopped && !t.hwStopped ==> t.thri
    decreases |ops|
  {
    if ops != [] {
      InvStep(s, ops[0]);
      NeverStalls(Step(s, ops[0]), ops[1..]);
    }
  }

  // put_char without its flush_chars is what the condition on owed is for: the
  // byte is in the ring and nothing will send it.
  lemma PutCharAloneStalls(s: Tx, c: bv8)
    requires s.queue == [] && !s.thri && !s.stopped && !s.hwStopped
    ensures var t := Step(s, Fill([c])); t.queue == [c] && !t.thri && t.owed > 0
  {}

  // ---- A stopped transmitter sends nothing ----

  // The operations that lift a software stop: a received START, and tty start.
  predicate Resumes(op: Op) {
    op.Start? || (op.GotFlowChar? && op.go)
  }

  // The operations that lift a hardware stop: CTS up, and turning CRTSCTS off.
  predicate Releases(op: Op) {
    (op.Cts? && op.up) || (op.SetFlow? && op.was && !op.rtscts)
  }

  lemma StoppedStep(s: Tx, op: Op)
    requires |s.queue| <= CAPACITY && (op.Kick? ==> s.owed > 0)
    ensures s.stopped && !Resumes(op) ==> Step(s, op).stopped && Step(s, op).sent == s.sent
    ensures s.hwStopped && !Releases(op) ==> Step(s, op).hwStopped && Step(s, op).sent == s.sent
  {}

  // From a software stop on, whatever happens, no byte of the ring is sent until a
  // START is received or the tty is started ...
  lemma {:induction false} StoppedSendsNothing(s: Tx, ops: seq<Op>)
    requires EnabledRun(s, ops) && s.stopped && forall op <- ops :: !Resumes(op)
    ensures Run(s, ops).stopped && Run(s, ops).sent == s.sent
    decreases |ops|
  {
    if ops != [] {
      assert ops[0] in ops;
      StoppedStep(s, ops[0]);
      StoppedSendsNothing(Step(s, ops[0]), ops[1..]);
    }
  }

  // ... and from a hardware stop on until CTS goes up or CRTSCTS is turned off.
  lemma {:induction false} HeldSendsNothing(s: Tx, ops: seq<Op>)
    requires EnabledRun(s, ops) && s.hwStopped && forall op <- ops :: !Releases(op)
    ensures Run(s, ops).hwStopped && Run(s, ops).sent == s.sent
    decreases |ops|
  {
    if ops != [] {
      assert ops[0] in ops;
      StoppedStep(s, ops[0]);
      HeldSendsNothing(Step(s, ops[0]), ops[1..]);
    }
  }

  // What establishes the two stops, and what lifts them.
  lemma StopsAndReleases(s: Tx)
    requires |s.queue| <= CAPACITY
    ensures Step(s, Stop).stopped && Step(s, GotFlowChar(false)).stopped
    ensures !Step(s, Start).stopped && !Step(s, GotFlowChar(true)).stopped
    ensures s.ctsFlow ==> Step(s, Cts(false)).hwStopped && !Step(s, Cts(true)).hwStopped
    ensures !Step(s, SetFlow(false, true)).hwStopped
    ensures Step(s, SetFlow(true, true)).ctsFlow && !Step(s, SetFlow(false, true)).ctsFlow
  {}

  // Without CTS flow control the modem's lines never hold the transmitter.
  lemma {:induction false} NotHeldWithoutCtsFlow(s: Tx, ops: seq<Op>)
    requires EnabledRun(s, ops) && !s.ctsFlow && !s.hwStopped && forall op <- ops :: op.SetFlow? ==> !op.rtscts
    ensures !Run(s, ops).ctsFlow && !Run(s, ops).hwStopped
    decreases |ops|
  {
    if ops != [] {
      assert ops[0] in ops;
      NotHeldWithoutCtsFlow(Step(s, ops[0]), ops[1..]);
    }
  }

  // ---- Nothing is lost, duplicated or reordered ----

  // The bytes accepted over a run.
  function Accepted(s: Tx, ops: seq<Op>): seq<bv8>
    requires EnabledRun(s, ops)
    decreases |ops|
  {
    if ops == [] then [] else
      (if ops[0].Fill? then Fitting(s, ops[0].bytes) else []) + Accepted(Step(s, ops[0]), ops[1..])
  }

  lemma StepConserves(s: Tx, op: Op)
    requires |s.queue| <= CAPACITY && (op.Kick? ==> s.owed > 0) && !op.Flush?
    ensures Step(s, op).sent + Step(s, op).queue ==
            s.sent + s.queue + (if op.Fill? then Fitting(s, op.bytes) else [])
  {
    if op.TxInterrupt? {
      TransmitConserves(s, op.fifo);
    } else if op.Fill? {
      Regroup(s.sent, s.queue, Fitting(s, op.bytes));
    }
  }

  lemma TransmitConserves(s: Tx, fifo: nat)
    ensures Transmitted(s, fifo).sent + Transmitted(s, fifo).queue == s.sent + s.queue
  {}

  lemma Regroup(a: seq<bv8>, b: seq<bv8>, c: seq<bv8>)
    ensures (a + b) + c == a + (b + c)
  {}

  // Between flushes, the bytes sent followed by those in the ring are exactly the
  // bytes accepted, whatever flow control and flow-control characters do.
  lemma {:induction false} BytesAreConserved(s: Tx, ops: seq<Op>)
    requires EnabledRun(s, ops) && forall op <- ops :: !op.Flush?
    ensures Run(s, ops).sent + Run(s, ops).queue == s.sent + s.queue + Accepted(s, ops)
    decreases |ops|
  {
    if ops != [] {
      var t := Step(s, ops[0]);
      StepConserves(s, ops[0]);
      assert ops[0] in ops;
      BytesAreConserved(t, ops[1..]);
      Regroup(s.sent + s.queue, if ops[0].Fill? then Fitting(s, ops[0].bytes) else [], Accepted(t, ops[1..]));
    }
  }

  // ---- Interrupts drain the ring ----

  function PerInterrupt(fifo: nat): nat {
    if fifo == 0 then 1 else fifo
  }

  // The interrupts that n bytes call for.
  function Interrupts(n: nat, fifo: nat): seq<Op>
    decreases n
  {
    if n == 0 then [] else [TxInterrupt(fifo)] + Interrupts(n - Min(n, PerInterrupt(fifo)), fifo)
  }

  lemma OneInterrupt(s: Tx, fifo: nat)
    requires s.queue != [] && s.xChar == 0 && !s.stopped && !s.hwStopped
    ensures var t := Transmitted(s, fifo);
            && |t.queue| == |s.queue| - Min(|s.queue|, PerInterrupt(fifo))
            && t.sent + t.queue == s.sent + s.queue
            && t.xChar == 0 && !t.stopped && !t.hwStopped
  {}

  // Left alone, those interrupts send everything, in order.
  lemma {:induction false} InterruptsDrain(s: Tx, fifo: nat)
    requires |s.queue| <= CAPACITY && s.xChar == 0 && !s.stopped && !s.hwStopped
    ensures var ops := Interrupts(|s.queue|, fifo);
            EnabledRun(s, ops) && Run(s, ops).queue == [] && Run(s, ops).sent == s.sent + s.queue
    decreases |s.queue|
  {
    if s.queue != [] {
      var t := Transmitted(s, fifo);
      OneInterrupt(s, fifo);
      assert Interrupts(|s.queue|, fifo)[1..] == Interrupts(|t.queue|, fifo);
      InterruptsDrain(t, fifo);
    }
  }
}
