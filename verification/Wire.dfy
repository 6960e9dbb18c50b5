// What travels over the parallel cable, and what a printer makes of it in
// Compatibility Mode (IEEE Std 1284): a byte is taken over when the strobe is
// raised.

module Wire {
  import opened ControlRegister

  const STATUS_ERROR: bv8 := 0x08
  const STATUS_SELECT: bv8 := 0x10
  const STATUS_PAPEROUT: bv8 := 0x20
  const STATUS_BUSY: bv8 := 0x80

  const READY: bv8 := STATUS_ERROR | STATUS_BUSY

  // Not busy (bit 7, the line is inverted) and no error (bit 3, likewise).
  predicate Ready(status: bv8) {
    status & 0x80 != 0 && status & 0x08 != 0
  }

  lemma ReadyBits(status: bv8)
    ensures status & READY == READY <==> Ready(status)
  {}

  datatype BusOp = Data(b: bv8) | Ctl(c: bv8) | Status(v: bv8)

  // An access by the client under consideration (mine) or by another one.
  datatype BusEvent = Ev(mine: bool, op: BusOp)

  predicate Strobe(c: bv8) {
    c & 0x01 != 0
  }

  // The strobe level and the data lines after a sequence of accesses.
  function Level(log: seq<BusEvent>): bool {
    if log == [] then false else
      match log[|log| - 1].op
      case Ctl(c) => Strobe(c)
      case _ => Level(log[..|log| - 1])
  }

  function Lines(log: seq<BusEvent>): bv8 {
    if log == [] then 0 else
      match log[|log| - 1].op
      case Data(b) => b
      case _ => Lines(log[..|log| - 1])
  }

  // The access raises the strobe.
  predicate Raises(log: seq<BusEvent>, e: BusEvent) {
    e.op.Ctl? && Strobe(e.op.c) && !Level(log)
  }

  // The bytes the printer received from this client.
  function Mine(log: seq<BusEvent>): seq<bv8> {
    if log == [] then [] else
      var pre, e := log[..|log| - 1], log[|log| - 1];
      Mine(pre) + (if e.mine && Raises(pre, e) then [Lines(pre)] else [])
  }

  // This client's last status read said ready, and nobody has strobed or used the
  // port since.
  function Armed(log: seq<BusEvent>): bool {
    if log == [] then false else
      var pre, e := log[..|log| - 1], log[|log| - 1];
      if !e.mine then false
      else match e.op
        case Status(v) => Ready(v)
        case Ctl(c) => !Raises(pre, e) && Armed(pre)
        case Data(_) => Armed(pre)
  }

  // Every byte this client strobed out went to a ready printer.
  predicate Polite(log: seq<BusEvent>) {
    log == [] ||
    var pre, e := log[..|log| - 1], log[|log| - 1];
    Polite(pre) && (e.mine && Raises(pre, e) ==> Armed(pre))
  }

  lemma Snoc(log: seq<BusEvent>, e: BusEvent)
    ensures Mine(log + [e]) == Mine(log) + if e.mine && Raises(log, e) then [Lines(log)] else []
    ensures Level(log + [e]) == if e.op.Ctl? then Strobe(e.op.c) else Level(log)
    ensures Lines(log + [e]) == if e.op.Data? then e.op.b else Lines(log)
    ensures Polite(log + [e]) == (Polite(log) && (e.mine && Raises(log, e) ==> Armed(log)))
    ensures Armed(log + [e]) == (e.mine && match e.op
                                 case Status(v) => Ready(v)
                                 case Ctl(_) => !Raises(log, e) && Armed(log)
                                 case Data(_) => Armed(log))
  {}

  // Whatever other clients do on the bus, nothing is received from this one.
  lemma {:induction false} OthersAreNotMine(log: seq<BusEvent>, others: seq<BusEvent>)
    requires forall e <- others :: !e.mine
    ensures Mine(log + others) == Mine(log)
    ensures Polite(log) ==> Polite(log + others)
  {
    if others == [] {
      assert log + others == log;
    } else {
      var pre, e := others[..|others| - 1], others[|others| - 1];
      OthersAreNotMine(log, pre);
      assert log + others == (log + pre) + [e];
      assert !e.mine;
      Snoc(log + pre, e);
    }
  }

  // Before each strobe of this client comes a status read of its own that found the
  // printer neither busy nor in error, and in between nobody else used the bus and
  // nothing was strobed.
  lemma {:induction false} StrobesAreAllowed(log: seq<BusEvent>, i: nat) returns (j: nat)
    requires Polite(log) && i < |log| && log[i].mine && Raises(log[..i], log[i])
    ensures j < i && log[j].mine && log[j].op.Status? && log[j].op.v & 0x80 != 0 && log[j].op.v & 0x08 != 0
    ensures forall m :: j < m < i ==> log[m].mine && !Raises(log[..m], log[m])
    decreases |log|
  {
    var pre := log[..|log| - 1];
    if i < |log| - 1 {
      assert pre[..i] == log[..i];
      j := StrobesAreAllowed(pre, i);
      forall m | j < m < i ensures log[m].mine && !Raises(log[..m], log[m]) {
        assert pre[..m] == log[..m] && pre[m] == log[m];
      }
    } else {
      assert log[..i] == pre;
      j := LastReady(pre);
      forall m | j < m < i ensures log[m].mine && !Raises(log[..m], log[m]) {
        assert pre[..m] == log[..m] && pre[m] == log[m];
      }
    }
  }

  lemma {:induction false} LastReady(log: seq<BusEvent>) returns (j: nat)
    requires Armed(log)
    ensures j < |log| && log[j].mine && log[j].op.Status? && log[j].op.v & 0x80 != 0 && log[j].op.v & 0x08 != 0
    ensures forall m :: j < m < |log| ==> log[m].mine && !Raises(log[..m], log[m])
    decreases |log|
  {
    var pre, e := log[..|log| - 1], log[|log| - 1];
    if e.op.Status? {
      j := |log| - 1;
    } else {
      j := LastReady(pre);
      forall m | j < m < |log| ensures log[m].mine && !Raises(log[..m], log[m]) {
        if m < |pre| {
          assert pre[..m] == log[..m] && pre[m] == log[m];
        }
      }
    }
  }

  lemma StrobeBit(ctr: bv8, d: bv8)
    ensures Strobe(WriteControl(ctr, d)) <==> Strobe(d)
    ensures WriteControl(ctr, d) & 0x0F == d & 0x0F
    ensures d & 0x20 == 0 ==> WriteControl(ctr, d) & 0x20 == ctr & 0x20
  {}

  lemma FrobKeepsStrobe(ctr: bv8, mask: bv8, val: bv8)
    requires mask & STROBE == 0 && val & STROBE == 0
    ensures Strobe(Frob(ctr, mask, val)) <==> Strobe(ctr)
    ensures mask & 0x0F == val & 0x0F == 0 ==> Frob(ctr, mask, val) & 0x0F == ctr & 0x0F
    ensures mask & 0x20 != 0 && val & 0x20 == 0 ==> Frob(ctr, mask, val) & 0x20 == 0
  {}
}
