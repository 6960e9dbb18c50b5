// The transmitter with start cut into its steps (driver/snx_serial.c:528-550 and
// :3713-3733).  A start takes no lock: it tests ring and flags, then reads the
// interrupt enable shadow, then writes it.  The other operations hold the port lock,
// but those that write the transmit interrupt off, or write back what they read, have
// a gap before that write, and starts run in it.

module StartRace {
  import opened SerialModel

  // What the holder of the port lock is about to do to the shadow.
  datatype Gap =
    | Shut            // nothing
    | Wants           // decided to turn the transmit interrupt off, shadow not read yet
    | Clears          // read the interrupt on, will write it off
    | Keeps(b: bool)  // set_termios: will write back what it read

  // passed counts the starts that passed their test and have the shadow still to read,
  // loaded those that read the interrupt off and will write it on; tx.owed counts those
  // before their test.
  datatype Cut = Cut(tx: Tx, passed: nat, loaded: nat, gap: Gap)

  datatype Event =
    | Locked(op: Op)  // an operation under the lock, as far as its last write of the shadow
    | Read            // stop_tx reads the shadow
    | ModeRead        // set_termios reads it
    | Write           // either writes it
    | Unstop          // tty start: the core clears tty->stopped and calls start
    | Test
    | Load
    | Store

  // The operation calls sunix_ser_stop_tx.
  predicate Stops(t: Tx, op: Op)
    requires |t.queue| <= CAPACITY && !op.Kick?
  {
    !SerialModel.Step(t.(thri := true), op).thri
  }

  predicate Waiting(t: Tx) {
    t.queue != [] && !t.stopped && !t.hwStopped
  }

  predicate Enabled(s: Cut, e: Event) {
    match e
    case Locked(op) => s.gap.Shut? && !op.Kick? && !op.Start?
    case Read => s.gap.Wants?
    case ModeRead => s.gap.Shut?
    case Write => s.gap.Clears? || s.gap.Keeps?
    case Unstop => true
    case Test => s.tx.owed > 0
    case Load => s.passed > 0
    case Store => s.loaded > 0
  }

  function Step(s: Cut, e: Event): Cut
    requires |s.tx.queue| <= CAPACITY && Enabled(s, e)
  {
    var t := s.tx;
    match e
    case Locked(op) =>
      if Stops(t, op) then s.(tx := SerialModel.Step(t, op).(thri := t.thri), gap := Wants)
      else s.(tx := SerialModel.Step(t, op))
    case Read => s.(gap := if t.thri then Clears else Shut)
    case ModeRead => s.(gap := Keeps(t.thri))
    case Write => s.(tx := t.(thri := s.gap.Keeps? && s.gap.b), gap := Shut)
    case Unstop => s.(tx := t.(stopped := false, owed := t.owed + 1))
    case Test => s.(tx := t.(owed := t.owed - 1), passed := if Waiting(t) then s.passed + 1 else s.passed)
    case Load => s.(passed := s.passed - 1, loaded := if t.thri then s.loaded else s.loaded + 1)
    case Store => s.(tx := t.(thri := true), loaded := s.loaded - 1)
  }

  // ---- When a start is wasted ----

  function Coming(s: Cut): nat {
    s.tx.owed + s.passed + s.loaded
  }

  // Bytes waiting with nothing holding them back: a start is under way, or the
  // interrupt is on and will not be written off.
  predicate Live(s: Cut) {
    Waiting(s.tx) ==> Coming(s) > 0 || (s.gap.Shut? && s.tx.thri) || (s.gap.Keeps? && s.gap.b)
  }

  predicate Inv(s: Cut) {
    |s.tx.queue| <= CAPACITY && Live(s)
  }

  // The last start under way ends, because it finds the interrupt on or turns it on,
  // while bytes wait and the holder of the lock will write the interrupt off.
  predicate Wasted(s: Cut, e: Event) {
    && Waiting(s.tx) && Coming(s) == 1 && (s.gap.Wants? || s.gap.Clears? || (s.gap.Keeps? && !s.gap.b))
    && ((e.Load? && s.passed > 0 && s.tx.thri) || (e.Store? && s.loaded > 0))
  }

  lemma LockedLive(s: Cut, op: Op)
    requires Inv(s) && Enabled(s, Locked(op))
    ensures Inv(Step(s, Locked(op)))
  {}

  lemma OwnLive(s: Cut, e: Event)
    requires Inv(s) && Enabled(s, e) && !e.Locked?
    ensures Inv(Step(s, e)) <==> !Wasted(s, e)
  {}

  // A step stalls the transmitter exactly when it wastes the last start.
  lemma InvStepIff(s: Cut, e: Event)
    requires Inv(s) && Enabled(s, e)
    ensures Inv(Step(s, e)) <==> !Wasted(s, e)
  {
    if e.Locked? {
      LockedLive(s, e.op);
    } else {
      OwnLive(s, e);
    }
  }

  // ---- Runs ----

  lemma OpFits(t: Tx, op: Op)
    requires |t.queue| <= CAPACITY && (op.Kick? ==> t.owed > 0)
    ensures |SerialModel.Step(t, op).queue| <= CAPACITY
  {}

  lemma RingFits(s: Cut, e: Event)
    requires |s.tx.queue| <= CAPACITY && Enabled(s, e)
    ensures |Step(s, e).tx.queue| <= CAPACITY
  {
    match e
    case Locked(op) => OpFits(s.tx, op);
    case _ =>
  }

  predicate EnabledRun(s: Cut, es: seq<Event>)
    requires |s.tx.queue| <= CAPACITY
    decreases |es|
  {
    es == [] || (Enabled(s, es[0]) && (RingFits(s, es[0]); EnabledRun(Step(s, es[0]), es[1..])))
  }

  function Run(s: Cut, es: seq<Event>): (t: Cut)
    requires |s.tx.queue| <= CAPACITY && EnabledRun(s, es)
    ensures |t.tx.queue| <= CAPACITY
    decreases |es|
  {
    if es == [] then s else
      RingFits(s, es[0]);
      Run(Step(s, es[0]), es[1..])
  }

  predicate NoneWasted(s: Cut, es: seq<Event>)
    requires |s.tx.queue| <= CAPACITY && EnabledRun(s, es)
    decreases |es|
  {
    es == [] || (!Wasted(s, es[0]) && (RingFits(s, es[0]); NoneWasted(Step(s, es[0]), es[1..])))
  }

  predicate AlwaysLive(s: Cut, es: seq<Event>)
    requires |s.tx.queue| <= CAPACITY && EnabledRun(s, es)
    decreases |es|
  {
    Live(s) && (es == [] || (RingFits(s, es[0]); AlwaysLive(Step(s, es[0]), es[1..])))
  }

  // Over a run, with any number of starts cut anywhere, the transmitter is live
  // throughout exactly when no start is wasted; and when it is and all is quiet, bytes
  // waiting with nothing holding them back have the interrupt on.
  lemma {:induction false} NeverStallsIff(s: Cut, es: seq<Event>)
    requires Inv(s) && EnabledRun(s, es)
    ensures AlwaysLive(s, es) <==> NoneWasted(s, es)
    ensures var t := Run(s, es);
            NoneWasted(s, es) && t.gap.Shut? && Coming(t) == 0 && Waiting(t.tx) ==> t.tx.thri
    decreases |es|
  {
    if es == [] {
    } else {
      RingFits(s, es[0]);
      InvStepIff(s, es[0]);
      if !Wasted(s, es[0]) {
        NeverStallsIff(Step(s, es[0]), es[1..]);
      }
    }
  }

  // ---- Uncut ----

  predicate Leads(s: Cut, es: seq<Event>, t: Cut) {
    |s.tx.queue| <= CAPACITY && EnabledRun(s, es) && Run(s, es) == t
  }

  lemma Cons(s: Cut, e: Event, es: seq<Event>, t: Cut)
    requires |s.tx.queue| <= CAPACITY && Enabled(s, e) && Leads(Step(s, e), es, t)
    ensures Leads(s, [e] + es, t)
  {
    assert ([e] + es)[1..] == es;
  }

  lemma {:induction false} Also(s: Cut, es: seq<Event>, t: Cut, e: Event)
    requires Leads(s, es, t) && Enabled(t, e)
    ensures Leads(s, es + [e], Step(t, e))
    decreases |es|
  {
    RingFits(t, e);
    if es == [] {
      Cons(s, e, [], Step(t, e));
      assert es + [e] == [e] + [];
    } else {
      RingFits(s, es[0]);
      Also(Step(s, es[0]), es[1..], t, e);
      Cons(s, es[0], es[1..] + [e], Step(t, e));
      assert es + [e] == [es[0]] + (es[1..] + [e]);
    }
  }

  lemma Once(s: Cut, e: Event)
    requires |s.tx.queue| <= CAPACITY && Enabled(s, e)
    ensures Leads(s, [e], Step(s, e))
  {
    Also(s, [], s, e);
    assert [] + [e] == [e];
  }

  // A start nobody runs beside does what it does uncut ...
  lemma StartUncut(s: Cut) returns (es: seq<Event>)
    requires |s.tx.queue| <= CAPACITY && s.tx.owed > 0
    ensures es <= [Test, Load, Store] && Leads(s, es, s.(tx := SerialModel.Step(s.tx, Kick)))
  {
    var t := Step(s, Test);
    Once(s, Test);
    es := [Test];
    if Waiting(s.tx) {
      Also(s, [Test], t, Load);
      es := [Test] + [Load];
      if !s.tx.thri {
        Also(s, es, Step(t, Load), Store);
        es := es + [Store];
      }
    }
  }

  // ... and so does a locked operation.
  lemma LockedUncut(s: Cut, op: Op) returns (es: seq<Event>)
    requires |s.tx.queue| <= CAPACITY && Enabled(s, Locked(op))
    ensures es <= [Locked(op), Read, Write] && Leads(s, es, s.(tx := SerialModel.Step(s.tx, op)))
  {
    var t := Step(s, Locked(op));
    Once(s, Locked(op));
    es := [Locked(op)];
    if Stops(s.tx, op) {
      Also(s, es, t, Read);
      es := [Locked(op)] + [Read];
      if s.tx.thri {
        Also(s, es, Step(t, Read), Write);
        es := es + [Write];
      }
    }
  }

  // ---- Two wasted starts ----

  const IDLE: Cut := Cut(Tx([], [], false, false, false, false, 0, 0), 0, 0, Shut)
  const FILLED: Cut := Cut(Tx([0x41], [], false, false, false, false, 0, 1), 0, 0, Shut)
  const LOADED: Cut := Cut(Tx([0x41], [], false, false, false, false, 0, 0), 0, 1, Shut)
  const SENDING: Cut := Cut(Tx([0x41], [], true, false, false, false, 0, 0), 0, 0, Shut)
  const HALTING: Cut := Cut(Tx([0x41], [], true, true, false, false, 0, 0), 0, 0, Wants)
  const WASTED: Cut := Cut(Tx([0x41], [], true, false, false, false, 0, 0), 0, 0, Wants)
  const STALLED: Cut := Cut(Tx([0x41], [], false, false, false, false, 0, 0), 0, 0, Shut)

  predicate Stalled(s: Cut) {
    s.gap.Shut? && Coming(s) == 0 && Waiting(s.tx) && !s.tx.thri
  }

  lemma Fills() ensures Step(IDLE, Locked(Fill([0x41]))) == FILLED {}

  lemma Loads() ensures Step(Step(FILLED, Test), Load) == LOADED {}

  lemma Halts() ensures Step(SENDING, Locked(GotFlowChar(false))) == HALTING {}

  lemma ToLoaded() returns (es: seq<Event>)
    ensures Leads(IDLE, es, LOADED)
  {
    Fills();
    Loads();
    Once(IDLE, Locked(Fill([0x41])));
    Also(IDLE, [Locked(Fill([0x41]))], FILLED, Test);
    es := [Locked(Fill([0x41]))] + [Test];
    Also(IDLE, es, Step(FILLED, Test), Load);
    es := es + [Load];
  }

  // STOP is received while the interrupt is on, and tty start finds it still on: the
  // start does nothing, and then the interrupt is written off.
  lemma StoppedAfterStart() returns (es: seq<Event>)
    ensures Leads(IDLE, es, STALLED) && Stalled(STALLED)
  {
    es := ToLoaded();
    Also(IDLE, es, LOADED, Store);
    es := es + [Store];
    assert Step(LOADED, Store) == SENDING;
    Halts();
    Also(IDLE, es, SENDING, Locked(GotFlowChar(false)));
    es := StartsInGap(es + [Locked(GotFlowChar(false))]);
  }

  lemma Starts() ensures Step(Step(Step(HALTING, Unstop), Test), Load) == WASTED {}

  lemma Clearing() ensures Step(Step(WASTED, Read), Write) == STALLED {}

  lemma StartsInGap(fs: seq<Event>) returns (es: seq<Event>)
    requires Leads(IDLE, fs, HALTING)
    ensures Leads(IDLE, es, STALLED)
  {
    Starts();
    Also(IDLE, fs, HALTING, Unstop);
    es := fs + [Unstop];
    Also(IDLE, es, Step(HALTING, Unstop), Test);
    es := es + [Test];
    Also(IDLE, es, Step(Step(HALTING, Unstop), Test), Load);
    es := ClearsAfter(es + [Load]);
  }

  lemma ClearsAfter(fs: seq<Event>) returns (es: seq<Event>)
    requires Leads(IDLE, fs, WASTED)
    ensures Leads(IDLE, es, STALLED)
  {
    Clearing();
    Also(IDLE, fs, WASTED, Read);
    es := fs + [Read];
    Also(IDLE, es, Step(WASTED, Read), Write);
    es := es + [Write];
  }

  // set_termios reads the shadow before a start writes it, and writes it back after.
  lemma WrittenBack() returns (es: seq<Event>)
    ensures Leads(IDLE, es, STALLED) && Stalled(STALLED)
  {
    es := ToLoaded();
    var s := LOADED;
    Also(IDLE, es, s, ModeRead);
    es, s := es + [ModeRead], Step(s, ModeRead);
    Also(IDLE, es, s, Store);
    es, s := es + [Store], Step(s, Store);
    Also(IDLE, es, s, Write);
    es := es + [Write];
  }
}
