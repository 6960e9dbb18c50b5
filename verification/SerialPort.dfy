// The serial port object (driver/snx_serial.c): transmit ring, shadowed UART
// registers, and the flow-control flags of its tty.

module SerialPorts {
  import opened Options
  import opened SerialModel
  import opened XmitRings
  import opened Uart
  import opened Baud

  // The control flags of a termios that the port looks at.
  datatype Termios = Termios(
    rate: Rate, csize: nat, cstopb: bool, parenb: bool, parodd: bool, cmspar: bool,
    crtscts: bool, clocal: bool)

  // The line control byte for a termios.
  function LineControl(t: Termios): bv8 {
    (if t.csize == 5 then 0x00 else if t.csize == 6 then 0x01 else if t.csize == 7 then 0x02 else 0x03)
    | (if t.cstopb then 0x04 else 0) | (if t.parenb then 0x08 else 0)
    | (if !t.parodd then 0x10 else 0) | (if t.cmspar then 0x20 else 0)
  }

  lemma LineControlIsClosed(t: Termios)
    ensures LineControl(t) & LCR_DLAB == 0
  {}

  // The line control byte of a 16550 UART, bit by bit: character length less 5, two
  // stop bits, parity, even parity, stick parity, and neither break nor the latch.
  predicate LineAsked(lcr: bv8, t: Termios) {
    && (lcr & 0x03 == if t.csize == 5 then 0 else if t.csize == 6 then 1 else if t.csize == 7 then 2 else 3)
    && (lcr & 0x04 != 0 <==> t.cstopb) && (lcr & 0x08 != 0 <==> t.parenb) && (lcr & 0x10 != 0 <==> !t.parodd)
    && (lcr & 0x20 != 0 <==> t.cmspar) && lcr & 0xC0 == 0
  }

  lemma LineControlAsks(t: Termios)
    ensures LineAsked(LineControl(t), t)
  {}

  // No other byte does: the settings can be read back from it.
  lemma LineAskedOnce(a: bv8, b: bv8, t: Termios)
    requires LineAsked(a, t) && LineAsked(b, t)
    ensures a == b
  {}

  lemma ModemBit(b: bv8)
    ensures (b & !IER_MSI) & IER_MSI == 0 && (b | IER_MSI) & IER_MSI != 0
    ensures (b & !IER_MSI) & IER_THRI == b & IER_THRI && (b | IER_MSI) & IER_THRI == b & IER_THRI
  {}

  // The ring bytes among all the bytes written to the transmitter.
  function Select(thr: seq<bv8>, fromRing: seq<bool>): seq<bv8>
    requires |thr| == |fromRing|
  {
    if thr == [] then [] else
      Select(thr[..|thr| - 1], fromRing[..|thr| - 1]) +
      (if fromRing[|thr| - 1] then [thr[|thr| - 1]] else [])
  }

  lemma SelectSnoc(thr: seq<bv8>, fromRing: seq<bool>, c: bv8, ring: bool)
    requires |thr| == |fromRing|
    ensures Select(thr + [c], fromRing + [ring]) == Select(thr, fromRing) + (if ring then [c] else [])
  {}

  // What a received flow-control character does, and what other characters do not.
  function AfterChars(s: Tx, chars: seq<bv8>, go: bv8, halt: bv8): Tx {
    if chars == [] then s else
      var t := AfterChars(s, chars[..|chars| - 1], go, halt);
      var c := chars[|chars| - 1];
      if c == go then t.(stopped := false, thri := true)
      else if c == halt then t.(stopped := true, thri := false)
      else t
  }

  function Ordinary(chars: seq<bv8>, go: bv8, halt: bv8): seq<bv8> {
    if chars == [] then [] else
      var c := chars[|chars| - 1];
      Ordinary(chars[..|chars| - 1], go, halt) + (if c == go || c == halt then [] else [c])
  }

  lemma Slide(sent: seq<bv8>, q: seq<bv8>, n: nat)
    requires n < |q|
    ensures q[n..][0] == q[n] && q[n..][1..] == q[n + 1..]
    ensures sent + q[..n] + [q[n]] == sent + q[..n + 1]
  {}

  // One received character, with software flow control on or off
  function CharDone(s: Tx, c: bv8, soft: bool, go: bv8, halt: bv8): Tx {
    if !soft then s
    else if c == go then s.(stopped := false, thri := true)
    else if c == halt then s.(stopped := true, thri := false)
    else s
  }

  function Kept(c: bv8, soft: bool, go: bv8, halt: bv8): seq<bv8> {
    if soft && (c == go || c == halt) then [] else [c]
  }

  function CharsDone(s: Tx, chars: seq<bv8>, soft: bool, go: bv8, halt: bv8): Tx {
    if soft then AfterChars(s, chars, go, halt) else s
  }

  function AllKept(chars: seq<bv8>, soft: bool, go: bv8, halt: bv8): seq<bv8> {
    if soft then Ordinary(chars, go, halt) else chars
  }

  lemma OneMore(s: Tx, chars: seq<bv8>, n: nat, soft: bool, go: bv8, halt: bv8)
    requires n < |chars|
    ensures CharsDone(s, chars[..n + 1], soft, go, halt)
              == CharDone(CharsDone(s, chars[..n], soft, go, halt), chars[n], soft, go, halt)
    ensures AllKept(chars[..n + 1], soft, go, halt)
              == AllKept(chars[..n], soft, go, halt) + Kept(chars[n], soft, go, halt)
  {
    assert chars[..n + 1][..n] == chars[..n];
  }

  const IIR_THRI: bv8 := 0x02
  const IIR_RDI: bv8 := 0x04
  const IIR_RLSI: bv8 := 0x06
  const IIR_CTO: bv8 := 0x0C
  const LSR_THRE: bv8 := 0x20
  const MSR_DCTS: bv8 := 0x01
  const MSR_CTS: bv8 := 0x10
  const MSR_ANY_DELTA: bv8 := 0x0F

  // What the chip answers during one interrupt (a line status of 0xFF is no answer), and the tty's software flow control.
  datatype Irq = Irq(iir: bv8, lsr: bv8, msr: bv8, chars: seq<bv8>, softFlow: bool, startChar: bv8, stopChar: bv8)

  predicate IsReceive(irq: Irq) {
    irq.iir == IIR_RLSI || irq.iir == IIR_CTO || irq.iir == IIR_RDI
  }

  // A transmit interrupt, with the transmitter empty
  predicate MayTransmit(irq: Irq) {
    irq.iir == 0x02 && irq.lsr != 0xFF && irq.lsr & 0x20 != 0
  }

  function Handled(s: Tx, irq: Irq, fifo: nat, sun1699: bool): Tx {
    ModemHandled(Served(s, irq, fifo), irq, sun1699)
  }

  function Served(s: Tx, irq: Irq, fifo: nat): Tx {
    var s1 := if IsReceive(irq) && irq.softFlow
              then AfterChars(s, irq.chars[..Min(|irq.chars|, 257)], irq.startChar, irq.stopChar) else s;
    if irq.iir == IIR_THRI && irq.lsr != 0xFF && irq.lsr & LSR_THRE != 0 then Transmitted(s1, fifo) else s1
  }

  function ModemHandled(s: Tx, irq: Irq, sun1699: bool): Tx {
    if irq.msr & MSR_ANY_DELTA != 0 then
      if irq.msr & MSR_DCTS != 0 then CtsChanged(s, irq.msr & MSR_CTS != 0) else s
    else if irq.iir == 0 && sun1699 then s.(thri := true)
    else s
  }

  // The last flow-control character decides whether the transmitter is stopped, and
  // without one nothing changes.
  lemma {:induction false} LastFlowCharWins(s: Tx, chars: seq<bv8>, go: bv8, halt: bv8, i: nat)
    requires i <= |chars| && (forall j :: i <= j < |chars| ==> chars[j] != go && chars[j] != halt)
    requires i > 0 ==> chars[i - 1] == go || chars[i - 1] == halt
    ensures i == 0 ==> AfterChars(s, chars, go, halt) == s
    ensures i > 0 ==> var t := AfterChars(s, chars, go, halt); t.stopped == (chars[i - 1] != go) && t.thri == !t.stopped
    decreases |chars|
  {
    if |chars| > i {
      LastFlowCharWins(s, chars[..|chars| - 1], go, halt, i);
    }
  }

  // What reaches the tty is everything but the flow-control characters, in order:
  // of one character ...
  lemma OrdinaryOne(c: bv8, go: bv8, halt: bv8)
    ensures Ordinary([c], go, halt) == if c == go || c == halt then [] else [c]
  {
    assert [c][..0] == [];
  }

  lemma OrdinarySnoc(chars: seq<bv8>, c: bv8, go: bv8, halt: bv8)
    ensures Ordinary(chars + [c], go, halt) == Ordinary(chars, go, halt) + Ordinary([c], go, halt)
  {
    assert (chars + [c])[..|chars|] == chars;
    OrdinaryOne(c, go, halt);
  }

  // ... and of two stretches.
  lemma {:induction false} OrdinaryBoth(chars: seq<bv8>, more: seq<bv8>, go: bv8, halt: bv8)
    ensures Ordinary(chars + more, go, halt) == Ordinary(chars, go, halt) + Ordinary(more, go, halt)
    decreases |more|
  {
    if more == [] {
      assert chars + more == chars;
    } else {
      var most, c := more[..|more| - 1], more[|more| - 1];
      OrdinaryBoth(chars, most, go, halt);
      OrdinarySnoc(chars + most, c, go, halt);
      OrdinarySnoc(most, c, go, halt);
      Regroup(chars, most, [c]);
      Regroup(Ordinary(chars, go, halt), Ordinary(most, go, halt), Ordinary([c], go, halt));
      assert most + [c] == more;
    }
  }

  lemma AfterCharsKeeps(s: Tx, chars: seq<bv8>, go: bv8, halt: bv8)
    requires SerialModel.Inv(s)
    ensures SerialModel.Inv(AfterChars(s, chars, go, halt))
    ensures AfterChars(s, chars, go, halt).queue == s.queue && AfterChars(s, chars, go, halt).sent == s.sent
  {}

  // A whole interrupt neither stalls the transmitter nor loses a byte.
  lemma InterruptKeeps(s: Tx, irq: Irq, fifo: nat, sun1699: bool)
    requires SerialModel.Inv(s)
    ensures SerialModel.Inv(Handled(s, irq, fifo, sun1699))
    ensures var t := Handled(s, irq, fifo, sun1699); t.sent + t.queue == s.sent + s.queue
  {
    var s1 := if IsReceive(irq) && irq.softFlow
              then AfterChars(s, irq.chars[..Min(|irq.chars|, 257)], irq.startChar, irq.stopChar) else s;
    AfterCharsKeeps(s, irq.chars[..Min(|irq.chars|, 257)], irq.startChar, irq.stopChar);
    StepConserves(s1, TxInterrupt(fifo));
    InvStep(s1, TxInterrupt(fifo));
  }

  // The registers of the line settings: line control, divisor latch, FIFO control
  // and the shadow of the first.
  datatype LineRegs = LineRegs(lcr: bv8, dll: bv8, dlm: bv8, fcr: bv8, shadow: bv8)

  // Line control and its shadow are what t asks for, and the latch holds the
  // divisor of the rate.
  predicate Carries(l: LineRegs, clock: Clock, t: Termios, baud: nat)
    requires baud > 0
  {
    && l.lcr == l.shadow && LineAsked(l.lcr, t)
    && Value(l.dll) + 256 * Value(l.dlm) == Divisor(clock, baud) % 65536
  }

  class SerialPort {
    const ring: XmitRing
    const sun1699: bool
    const fifosize: nat
    var uart: Regs
    var ier: bv8                // sp->ier, the shadow
    var lcr: bv8                // sp->lcr
    var clock: Clock
    var stopped: bool
    var hwStopped: bool
    var ctsFlow: bool
    var xChar: bv8
    var received: seq<bv8>      // characters passed up to the tty
    var up: bool                // SNX_UIF_INITIALIZED: the port is started
    var hasBuf: bool            // the ring's page is allocated

    ghost var owed: nat
    ghost var fromRing: seq<bool>

    ghost predicate Valid()
      reads this, ring, ring.buf
    {
      && ring.Valid()
      && |fromRing| == |uart.thr|
      && lcr & LCR_DLAB == 0
      && (up ==> hasBuf && !LatchOpen(uart) && uart.ier == ier)
    }

    ghost function Abs(): Tx
      requires |fromRing| == |uart.thr|
      reads this, ring
    {
      Tx(ring.queue, Select(uart.thr, fromRing), ier & IER_THRI != 0, stopped, hwStopped, ctsFlow, xChar, owed)
    }

    // Everything but the transmitter: line settings and divisor latch.
    ghost function Line(): LineRegs
      reads this
    {
      LineRegs(uart.lcr, uart.dll, uart.dlm, uart.fcr, lcr)
    }

    constructor (sun1699: bool, fifosize: nat, clock: Clock, chip: Regs)
      ensures Valid() && !up && fresh(ring) && fresh(ring.buf) && ring.queue == [] && owed == 0 && !hasBuf
      ensures Abs() == Tx([], [], false, false, false, false, 0, 0) && ier == 0 && received == []
    {
      ring := new XmitRing();
      this.sun1699, this.fifosize, this.clock := sun1699, fifosize, clock;
      uart, ier, lcr := chip.(thr := []), 0, 0;
      stopped, hwStopped, ctsFlow, xChar, received, up, hasBuf := false, false, false, 0, [], false, false;
      owed, fromRing := 0, [];
    }

    // ---- Starting and stopping the transmitter ----

    method StopTx()
      requires Valid() && up
      modifies `ier, `uart
      ensures Valid() && Abs() == old(Abs()).(thri := false) && Line() == old(Line())
      ensures uart.thr == old(uart.thr) && uart.ier & 0x02 == 0
    {
      if ier & IER_THRI != 0 {
        ier := ier & !IER_THRI;
        uart := OutB(uart, IER, ier);
      }
    }

    method StartTx()
      requires Valid() && up
      modifies `ier, `uart
      ensures Valid() && Abs() == old(Abs()).(thri := true) && Line() == old(Line())
      ensures uart.thr == old(uart.thr) && uart.mcr == old(uart.mcr) && uart.ier & 0x08 == old(uart.ier) & 0x08
      ensures uart.ier & 0x02 != 0
    {
      if ier & IER_THRI == 0 {
        ier := ier | IER_THRI;
        uart := OutB(uart, IER, ier);
      }
    }

    // __snx_ser_start
    method StartIfPending()
      requires Valid() && up
      modifies `ier, `uart
      ensures Valid() && Abs() == Started(old(Abs())) && Line() == old(Line())
      ensures uart.thr == old(uart.thr) && uart.mcr == old(uart.mcr) && uart.ier & 0x08 == old(uart.ier) & 0x08
    {
      var empty := ring.IsEmpty();
      if !empty && !stopped && !hwStopped {
        StartTx();
      }
    }

    method TtyStop()
      requires Valid() && up
      modifies `ier, `uart, `stopped
      ensures Valid() && Abs() == old(Abs()).(stopped := true, thri := false) && Line() == old(Line())
      ensures stopped && uart.thr == old(uart.thr) && uart.ier & 0x02 == 0
    {
      stopped := true;
      StopTx();
    }

    method TtyStart()
      requires Valid() && up
      modifies `ier, `uart, `stopped
      ensures Valid() && Abs() == Step(old(Abs()), Start) && Line() == old(Line())
    {
      stopped := false;
      StartIfPending();
    }

    // ---- Writing ----

    // The locked part of snx_ser_write.
    method FillRing(bytes: seq<bv8>) returns (ret: nat)
      requires Valid()
      modifies `owed, ring, ring.buf
      ensures Valid() && Abs() == Step(old(Abs()), Fill(bytes))
      ensures ret == |Fitting(old(Abs()), bytes)|
    {
      CountAndSpace(ring.head, ring.tail);
      ret := ring.Write(bytes);
      owed := owed + 1;
    }

    // The start call that ends a write, and flush_chars.
    method FlushChars()
      requires Valid() && up && owed > 0
      modifies `ier, `uart, `owed
      ensures Valid() && Abs() == Step(old(Abs()), Kick) && Line() == old(Line())
    {
      owed := owed - 1;
      StartIfPending();
    }

    // Without a page (the port is shut down) nothing is accepted.
    method Write(bytes: seq<bv8>) returns (ret: nat)
      requires Valid() && (hasBuf ==> up)
      modifies `ier, `uart, `owed, ring, ring.buf
      ensures Valid() && Line() == old(Line())
      ensures hasBuf ==> Abs() == Step(Step(old(Abs()), Fill(bytes)), Kick)
      ensures hasBuf ==> ret == Min(|bytes|, 4095 - |old(ring.queue)|)
      ensures !hasBuf ==> Abs() == old(Abs()) && ret == 0
    {
      if !hasBuf {
        return 0;
      }
      ret := FillRing(bytes);
      FlushChars();
    }

    method PutChar(c: bv8)
      requires Valid()
      modifies `owed, ring, ring.buf
      ensures Valid() && Abs() == Step(old(Abs()), Fill([c]))
    {
      CountAndSpace(ring.head, ring.tail);
      ring.PutChar(c);
      owed := owed + 1;
    }

    method FlushBuffer()
      requires Valid()
      modifies ring
      ensures Valid() && Abs() == Step(old(Abs()), Flush)
    {
      ring.Clear();
    }

    // ---- The transmit interrupt ----

    method SendByte(c: bv8, ghost ringByte: bool)
      requires Valid() && up
      modifies `uart, `fromRing
      ensures Valid() && Line() == old(Line())
      ensures Select(uart.thr, fromRing) == Select(old(uart.thr), old(fromRing)) + (if ringByte then [c] else [])
      ensures uart.thr == old(uart.thr) + [c]
    {
      SelectSnoc(uart.thr, fromRing, c, ringByte);
      uart := OutB(uart, TX, c);
      fromRing := fromRing + [ringByte];
    }

    method TransmitChars()
      requires Valid() && up
      modifies `uart, `ier, `xChar, `fromRing, ring
      ensures Valid() && Abs() == Step(old(Abs()), TxInterrupt(fifosize)) && Line() == old(Line())
      ensures old(xChar) != 0 ==> uart.thr == old(uart.thr) + [old(xChar)] && xChar == 0 && ring.queue == old(ring.queue)
      ensures old(xChar != 0 || (!stopped && !hwStopped && ring.queue != [])) ==> uart.ier == old(uart.ier)
      ensures old(xChar) == 0 && old(stopped || hwStopped || ring.queue == []) ==>
                uart.thr == old(uart.thr) && uart.ier & 0x02 == 0 && ring.queue == old(ring.queue)
      ensures old(xChar) == 0 && old(!stopped && !hwStopped && ring.queue != []) ==>
                var n := Min(if fifosize == 0 then 1 else fifosize, |old(ring.queue)|);
                uart.thr == old(uart.thr) + old(ring.queue)[..n] && ring.queue == old(ring.queue)[n..]
    {
      if xChar != 0 {
        SendByte(xChar, false);
        xChar := 0;
        return;
      }
      var empty := ring.IsEmpty();
      if empty || stopped || hwStopped {
        StopTx();
        return;
      }
      DrainFifo();
    }

    // The sending loop: at least one byte, at most fifosize.
    method DrainFifo()
      requires Valid() && up && ring.queue != []
      modifies `uart, `fromRing, ring
      ensures Valid() && Line() == old(Line())
      ensures var n := Min(PerInterrupt(fifosize), |old(ring.queue)|);
              && ring.queue == old(ring.queue)[n..]
              && Select(uart.thr, fromRing) == Select(old(uart.thr), old(fromRing)) + old(ring.queue)[..n]
              && uart.thr == old(uart.thr) + old(ring.queue)[..n]
    {
      ghost var q, sent, thr, n := ring.queue, Select(uart.thr, fromRing), uart.thr, 0;
      var count: int := fifosize;
      var more := true;
      while more
        invariant Valid() && Line() == old(Line())
        invariant 0 <= n <= |q| && ring.queue == q[n..] && count == fifosize - n
        invariant Select(uart.thr, fromRing) == sent + q[..n] && uart.thr == thr + q[..n]
        invariant more ==> n < |q| && (n == 0 || n < fifosize)
        invariant !more ==> n == Min(PerInterrupt(fifosize), |q|)
        decreases |q| - n
      {
        Slide(sent, q, n);
        Slide(thr, q, n);
        var c := ring.Pop();
        SendByte(c, true);
        n := n + 1;
        count := count - 1;
        var empty := ring.IsEmpty();
        more := !empty && count > 0;
      }
    }

    // ---- Flow control ----

    method HandleCtsChange(status: bool)
      requires Valid() && up
      modifies `ier, `uart, `hwStopped
      ensures Valid() && Abs() == CtsChanged(old(Abs()), status) && Line() == old(Line())
      ensures uart.thr == old(uart.thr) && hwStopped == if ctsFlow then !status else old(hwStopped)
      ensures if hwStopped == old(hwStopped) then uart.ier == old(uart.ier) else (uart.ier & 0x02 != 0 <==> status)
    {
      if ctsFlow {
        if hwStopped {
          if status {
            Resume();
          }
        } else {
          if !status {
            Hold();
          }
        }
      }
    }

    method Resume()
      requires Valid() && up
      modifies `ier, `uart, `hwStopped
      ensures Valid() && Abs() == old(Abs()).(hwStopped := false, thri := true) && Line() == old(Line())
      ensures uart.thr == old(uart.thr) && uart.ier & 0x02 != 0
    {
      hwStopped := false;
      StartTx();
    }

    method Hold()
      requires Valid() && up
      modifies `ier, `uart, `hwStopped
      ensures Valid() && Abs() == old(Abs()).(hwStopped := true, thri := false) && Line() == old(Line())
      ensures uart.thr == old(uart.thr) && uart.ier & 0x02 == 0
    {
      hwStopped := true;
      StopTx();
    }

    method SendXCharacter(ch: bv8)
      requires Valid() && up
      modifies `ier, `uart, `xChar
      ensures Valid() && Abs() == Step(old(Abs()), SendXChar(ch)) && Line() == old(Line())
    {
      xChar := ch;
      if ch != 0 {
        StartTx();
      }
    }

    // The IXOFF part of snx_ser_throttle and snx_ser_unthrottle.
    method Throttle(ixoff: bool, stopChar: bv8)
      requires Valid() && up
      modifies `ier, `uart, `xChar
      ensures Valid() && Line() == old(Line())
      ensures Abs() == if ixoff then Step(old(Abs()), SendXChar(stopChar)) else old(Abs())
    {
      if ixoff {
        SendXCharacter(stopChar);
      }
    }

    method Unthrottle(ixoff: bool, startChar: bv8)
      requires Valid() && up
      modifies `ier, `uart, `xChar
      ensures Valid() && Line() == old(Line())
      ensures Abs() == if !ixoff then old(Abs())
                       else if old(xChar) != 0 then Step(old(Abs()), CancelXChar)
                       else Step(old(Abs()), SendXChar(startChar))
    {
      if ixoff {
        if xChar != 0 {
          xChar := 0;
        } else {
          SendXCharacter(startChar);
        }
      }
    }

    // sunix_ser_receive_chars: at most 257 characters; with software flow control
    // on, START and STOP act on the transmitter and the others go to the tty.
    method ReceiveChars(chars: seq<bv8>, softFlow: bool, startChar: bv8, stopChar: bv8) returns (n: nat)
      requires Valid() && up && chars != []
      modifies `ier, `uart, `stopped, `received
      ensures Valid() && Line() == old(Line()) && n == Min(|chars|, 257)
      ensures Abs() == CharsDone(old(Abs()), chars[..n], softFlow, startChar, stopChar)
      ensures received == old(received) + AllKept(chars[..n], softFlow, startChar, stopChar)
      ensures uart.thr == old(uart.thr) && (!softFlow ==> stopped == old(stopped))
    {
      n := 0;
      var maxCount: int := 256;
      var more := true;
      ghost var before, kept := Abs(), received;
      while more
        invariant Valid() && Line() == old(Line()) && 0 <= n <= |chars| && maxCount == 256 - n
        invariant Abs() == CharsDone(before, chars[..n], softFlow, startChar, stopChar) && uart.thr == old(uart.thr)
        invariant received == kept + AllKept(chars[..n], softFlow, startChar, stopChar)
        invariant more ==> n < |chars| && n <= 256
        invariant !more ==> n == Min(|chars|, 257)
        decreases |chars| - n
      {
        NextChar(chars, n, before, kept, softFlow, startChar, stopChar);
        n := n + 1;
        more := n < |chars| && maxCount > 0;
        maxCount := maxCount - 1;
      }
    }

    // The n-th character, after n others were dealt with.
    method NextChar(chars: seq<bv8>, n: nat, ghost before: Tx, ghost kept: seq<bv8>, softFlow: bool, startChar: bv8,
                    stopChar: bv8)
      requires Valid() && up && n < |chars|
      requires Abs() == CharsDone(before, chars[..n], softFlow, startChar, stopChar)
      requires received == kept + AllKept(chars[..n], softFlow, startChar, stopChar)
      modifies `ier, `uart, `stopped, `received
      ensures Valid() && Line() == old(Line())
      ensures Abs() == CharsDone(before, chars[..n + 1], softFlow, startChar, stopChar)
      ensures received == kept + AllKept(chars[..n + 1], softFlow, startChar, stopChar)
      ensures uart.thr == old(uart.thr)
    {
      OneMore(before, chars, n, softFlow, startChar, stopChar);
      OneChar(chars[n], softFlow, startChar, stopChar);
    }

    method OneChar(ch: bv8, softFlow: bool, startChar: bv8, stopChar: bv8)
      requires Valid() && up
      modifies `ier, `uart, `stopped, `received
      ensures Valid() && Line() == old(Line())
      ensures Abs() == CharDone(old(Abs()), ch, softFlow, startChar, stopChar)
      ensures received == old(received) + Kept(ch, softFlow, startChar, stopChar)
      ensures uart.thr == old(uart.thr)
    {
      if softFlow {
        if ch == startChar {
          GotStart();
          return;
        } else if ch == stopChar {
          TtyStop();
          return;
        }
      }
      received := received + [ch];
    }

    method GotStart()
      requires Valid() && up
      modifies `ier, `uart, `stopped
      ensures Valid() && Abs() == old(Abs()).(stopped := false, thri := true) && Line() == old(Line())
      ensures uart.thr == old(uart.thr)
    {
      stopped := false;
      StartTx();
    }

    // ---- Interrupts ----

    // sunix_ser_handle_port: receive, transmit, modem status, or the empty interrupt
    // by which a SUN1699 asks for its transmit interrupt again.
    method HandlePort(irq: Irq)
      requires Valid() && up && irq.chars != []
      modifies `ier, `uart, `stopped, `hwStopped, `received, `xChar, `fromRing, ring
      ensures Valid() && Line() == old(Line())
      ensures Abs() == Handled(old(Abs()), irq, fifosize, sun1699)
      ensures old(xChar) == 0 && old(stopped || hwStopped) ==> uart.thr == old(uart.thr)
      ensures !MayTransmit(irq) ==> uart.thr == old(uart.thr)
      ensures MayTransmit(irq) && old(xChar) == 0 && old(!stopped && !hwStopped && ring.queue != []) ==>
                uart.thr == old(uart.thr) + old(ring.queue)[..Min(if fifosize == 0 then 1 else fifosize, |old(ring.queue)|)]
      ensures received == old(received) + if irq.iir !in {0x04, 0x06, 0x0C} then [] else
                            AllKept(irq.chars[..Min(|irq.chars|, 257)], irq.softFlow, irq.startChar, irq.stopChar)
      ensures !irq.softFlow || (irq.iir != 0x04 && irq.iir != 0x06 && irq.iir != 0x0C) ==> stopped == old(stopped)
      ensures hwStopped == if ctsFlow && irq.msr & 0x01 != 0 then irq.msr & 0x10 == 0 else old(hwStopped)
    {
      Serve(irq);
      CheckModemStatus(irq);
    }

    // What comes before the modem lines are looked at.
    method Serve(irq: Irq)
      requires Valid() && up && irq.chars != []
      modifies `ier, `uart, `stopped, `received, `xChar, `fromRing, ring
      ensures Valid() && Line() == old(Line()) && Abs() == Served(old(Abs()), irq, fifosize)
      ensures old(xChar) == 0 && old(stopped || hwStopped) ==> uart.thr == old(uart.thr)
      ensures !MayTransmit(irq) ==> uart.thr == old(uart.thr)
      ensures MayTransmit(irq) && old(xChar) == 0 && old(!stopped && !hwStopped && ring.queue != []) ==>
                uart.thr == old(uart.thr) + old(ring.queue)[..Min(if fifosize == 0 then 1 else fifosize, |old(ring.queue)|)]
      ensures received == old(received) + if irq.iir !in {0x04, 0x06, 0x0C} then [] else
                            AllKept(irq.chars[..Min(|irq.chars|, 257)], irq.softFlow, irq.startChar, irq.stopChar)
      ensures !irq.softFlow || (irq.iir != 0x04 && irq.iir != 0x06 && irq.iir != 0x0C) ==> stopped == old(stopped)
    {
      var lsr := irq.lsr;
      if lsr == 0xFF {
        lsr := 0x01;
      }
      if IsReceive(irq) {
        var n := ReceiveChars(irq.chars, irq.softFlow, irq.startChar, irq.stopChar);
      }
      if irq.iir == IIR_THRI && lsr & LSR_THRE != 0 {
        TransmitChars();
      }
    }

    method CheckModemStatus(irq: Irq)
      requires Valid() && up
      modifies `ier, `uart, `hwStopped
      ensures Valid() && Line() == old(Line()) && Abs() == ModemHandled(old(Abs()), irq, sun1699)
      ensures uart.thr == old(uart.thr)
      ensures hwStopped == if ctsFlow && irq.msr & 0x01 != 0 then irq.msr & 0x10 == 0 else old(hwStopped)
      ensures irq.msr & 0x0F == 0 && irq.iir == 0 && sun1699 ==> uart.ier & 0x02 != 0
      ensures irq.msr & 0x0F != 0 && (irq.msr & 0x01 == 0 || !ctsFlow) ==> uart.ier == old(uart.ier)
      ensures irq.msr & 0x0F == 0 && (irq.iir != 0 || !sun1699) ==> uart.ier == old(uart.ier)
    {
      if irq.msr & MSR_ANY_DELTA != 0 {
        if irq.msr & MSR_DCTS != 0 {
          HandleCtsChange(irq.msr & MSR_CTS != 0);
        }
      } else if irq.iir == 0 && sun1699 {
        StartTx();
      }
    }

    // ---- Line settings ----

    // sunix_ser_set_termios.  The divisor goes through the latch with DLAB set, so
    // no divisor byte reaches the transmitter or the interrupt enable.
    method SetLine(t: Termios, previous: Option<Termios>, hardpps: bool, fcr: bv8, mcr: bv8) returns (baud: nat, granted: Rate)
      requires Valid() && up
      requires HasRate(clock, t.rate, if previous.Some? then Some(previous.value.rate) else None)
      modifies `uart, `ier, `lcr
      ensures Valid() && Abs() == old(Abs())
      ensures uart.lcr == lcr == LineControl(t)
      ensures baud == RateFound(clock, t.rate, if previous.Some? then Some(previous.value.rate) else None)
      ensures Latch(uart) == Divisor(clock, baud) % 65536
      ensures uart.fcr == fcr && uart.mcr == mcr && uart.thr == old(uart.thr)
      ensures uart.ier & 0x08 != 0 <==> hardpps || t.crtscts || !t.clocal
    {
      LineControlIsClosed(t);
      ModemBit(ier);
      baud, granted := GetBaudRate(clock, t.rate, if previous.Some? then Some(previous.value.rate) else None,
                                   0, clock.uartclk / 16);
      var quot := Divisor(clock, baud);
      ApplyLine(LineControl(t), quot, hardpps || t.crtscts || !t.clocal, fcr, mcr);
    }

    // The part of sunix_ser_set_termios under the port lock.
    method ApplyLine(cval: bv8, quot: nat, msi: bool, fcr: bv8, mcr: bv8)
      requires Valid() && up && cval & LCR_DLAB == 0
      modifies `uart, `ier, `lcr
      ensures Valid() && ier == (if msi then old(ier) | IER_MSI else old(ier) & !IER_MSI)
      ensures uart.lcr == lcr == cval && Latch(uart) == quot % 65536
      ensures uart.fcr == fcr && uart.mcr == mcr && uart.thr == old(uart.thr)
    {
      var mask := ier & !IER_MSI;
      if msi {
        mask := mask | IER_MSI;
      }
      ier := mask;
      ProgramLine(cval, quot, fcr);
      uart := OutB(uart, MCR, mcr);
      uart := OutB(uart, IER, ier);
    }

    method ProgramLine(cval: bv8, quot: nat, fcr: bv8)
      requires cval & LCR_DLAB == 0
      modifies `uart, `lcr
      ensures lcr == cval && Latch(uart) == quot % 65536
      ensures uart == old(uart).(lcr := cval, fcr := fcr, dll := uart.dll, dlm := uart.dlm)
    {
      uart := OutB(uart, LCR, cval | LCR_DLAB);
      uart := OutB(uart, TX, ToByte(quot));
      uart := OutB(uart, IER, ToByte(quot / 256));
      uart := OutB(uart, FCR, fcr);
      uart := OutB(uart, LCR, cval);
      lcr := cval;
      LatchBytes(uart, quot);
    }

    // snx_ser_set_termios with snx_ser_change_speed.  Turning CRTSCTS off lifts a
    // hardware stop and restarts the transmitter.
    method SetTermios(t: Termios, previous: Termios, sameInput: bool, hardpps: bool, fcr: bv8, mcr: bv8)
      requires Valid() && up && HasRate(clock, t.rate, Some(previous.rate))
      modifies `uart, `ier, `lcr, `ctsFlow, `hwStopped
      ensures Valid()
      ensures t == previous && sameInput ==> Abs() == old(Abs()) && Line() == old(Line())
      ensures !(t == previous && sameInput) ==>
                && Abs() == FlowSet(old(Abs()), t.crtscts, previous.crtscts)
                && Carries(Line(), clock, t, RateFound(clock, t.rate, Some(previous.rate))) && uart.thr == old(uart.thr)
                && uart.fcr == fcr && uart.mcr == mcr && (uart.ier & 0x08 != 0 <==> hardpps || t.crtscts || !t.clocal)
    {
      if t == previous && sameInput {
        return;
      }
      ChangeSpeed(t, Some(previous), hardpps, fcr, mcr);
      if previous.crtscts && !t.crtscts {
        LiftHardwareStop();
      }
    }

    method ChangeSpeed(t: Termios, previous: Option<Termios>, hardpps: bool, fcr: bv8, mcr: bv8)
      requires Valid() && up
      requires HasRate(clock, t.rate, if previous.Some? then Some(previous.value.rate) else None)
      modifies `uart, `ier, `lcr, `ctsFlow
      ensures Valid() && Abs() == old(Abs()).(ctsFlow := t.crtscts)
      ensures var baud := RateFound(clock, t.rate, if previous.Some? then Some(previous.value.rate) else None);
              Carries(Line(), clock, t, baud) && uart.thr == old(uart.thr)
      ensures uart.fcr == fcr && uart.mcr == mcr && (uart.ier & 0x08 != 0 <==> hardpps || t.crtscts || !t.clocal)
    {
      LineControlAsks(t);
      var baud, granted := SetLine(t, previous, hardpps, fcr, mcr);
      ctsFlow := t.crtscts;
    }

    method LiftHardwareStop()
      requires Valid() && up
      modifies `uart, `ier, `hwStopped
      ensures Valid() && Abs() == Started(old(Abs()).(hwStopped := false)) && Line() == old(Line())
      ensures uart.thr == old(uart.thr) && uart.mcr == old(uart.mcr) && uart.ier & 0x08 == old(uart.ier) & 0x08
    {
      hwStopped := false;
      StartIfPending();
    }

    // sunix_ser_break_ctl
    method BreakCtl(on: bool)
      requires Valid() && up
      modifies `uart, `lcr
      ensures Valid() && Abs() == old(Abs()) && uart.lcr == lcr
      ensures lcr & 0x40 != 0 <==> on
      ensures lcr & 0xBF == old(lcr) & 0xBF
    {
      if on {
        lcr := lcr | LCR_SBC;
      } else {
        lcr := lcr & !LCR_SBC;
      }
      uart := OutB(uart, LCR, lcr);
    }

    // sunix_ser_stop_rx and sunix_ser_enable_ms: other bits of the same register.
    method StopRx()
      requires Valid() && up
      modifies `uart, `ier
      ensures Valid() && Abs() == old(Abs()) && Line() == old(Line()) && uart.ier == ier == old(ier) & 0xFB
    {
      ier := ier & !IER_RLSI;
      uart := OutB(uart, IER, ier);
    }

    method EnableMs()
      requires Valid() && up
      modifies `uart, `ier
      ensures Valid() && Abs() == old(Abs()) && Line() == old(Line()) && uart.ier == ier == old(ier) | 0x08
    {
      ier := ier | IER_MSI;
      uart := OutB(uart, IER, ier);
    }

    // ---- Opening and closing ----

    // snx_ser_startup with sunix_ser_startup; lsr is what the line status reads back.
    method Startup(lsr: bv8, buggy: bool, clearFifo: bool) returns (ok: bool)
      requires Valid() && (hasBuf ==> ring.queue == [])
      modifies `uart, `ier, `up, `hasBuf, ring
      ensures Valid() && ok == (old(up) || buggy || lsr != 0xFF)
      ensures !ok ==> !up && uart.ier == old(uart.ier) && ier == old(ier)
      ensures ok && !old(up) ==> up && ring.queue == [] && !Abs().thri && uart.lcr == 0x03
      ensures ok && !old(up) ==> SerialModel.Inv(Abs()) && uart.ier == ier == if sun1699 then 0x15 else 0x05
      ensures !old(up) && clearFifo ==> uart.fcr == 0
    {
      if up {
        return true;
      }
      if !hasBuf {
        hasBuf := true;
        ring.Clear();
      }
      if clearFifo {
        uart := OutB(uart, FCR, 0x01);
        uart := OutB(uart, FCR, 0x07);
        uart := OutB(uart, FCR, 0);
      }
      if !buggy && lsr == 0xFF {
        return false;
      }
      SetUp();
      ok := true;
    }

    method SetUp()
      requires Valid() && !up && hasBuf
      modifies `uart, `ier, `up
      ensures Valid() && up && uart.lcr == 0x03 && ier == (if sun1699 then 0x15 else 0x05) && ier & IER_THRI == 0
      ensures uart.thr == old(uart.thr) && uart.fcr == old(uart.fcr)
    {
      uart := OutB(uart, LCR, LCR_WLEN8);
      ier := IER_RLSI | IER_RDI;
      if sun1699 {
        ier := ier | CLK_DIVIDER_DISABLE;
      }
      uart := OutB(uart, IER, ier);
      up := true;
    }

    // snx_ser_shutdown with sunix_ser_shutdown
    method Shutdown()
      requires Valid()
      modifies `uart, `ier, `up, `hasBuf
      ensures Valid() && !up
      ensures old(up) ==> !hasBuf && uart.ier == ier == 0 && !LatchOpen(uart) && uart.lcr == old(uart.lcr) & 0xBF
      ensures old(up) ==> uart.fcr == 0 && uart.mcr == old(uart.mcr)
      ensures old(up) ==> uart.dll == old(uart.dll) && uart.dlm == old(uart.dlm) && uart.thr == old(uart.thr)
    {
      if !up {
        return;
      }
      ier := 0;
      uart := OutB(uart, IER, 0);
      uart := OutB(uart, LCR, uart.lcr & !LCR_SBC);
      uart := OutB(uart, FCR, 0x07);
      uart := OutB(uart, FCR, 0);
      hasBuf := false;
      up := false;
    }
  }
}
