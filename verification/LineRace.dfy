// set_termios under the port lock, write by write, beside a start that takes no lock
// (driver/snx_serial.c): between the two line control writes DLAB is open, and a
// start's write to the interrupt enable register lands in the divisor latch; and
// both read and write the register's shadow.

module LineRace {
  import opened Options
  import opened Uart

  // Where the starting thread is: sunix_ser_start_tx reads the shadow, writes it back
  // with the transmit interrupt added, and then writes it to the chip.
  datatype Starter = Away | Loaded(v: bv8) | Stored

  // What set_termios wants: its change to the shadow, line control, divisor.
  datatype Setting = Setting(clear: bv8, add: bv8, cval: bv8, quot: nat, fcr: bv8, mcr: bv8)

  // pc counts the steps of set_termios that are done; tmp is what it read of the
  // shadow, changed.
  datatype Race = Race(uart: Regs, ier: bv8, pc: nat, tmp: bv8, starter: Starter)

  datatype Event = Line | Load | Store | Out

  const DONE: nat := 9

  predicate Proper(l: Setting) {
    l.cval & LCR_DLAB == 0 && l.clear & IER_THRI == 0 && l.add & IER_THRI == 0
  }

  predicate Enabled(s: Race, e: Event) {
    match e
    case Line => s.pc < DONE
    case Load => s.starter.Away?
    case Store => s.starter.Loaded?
    case Out => s.starter.Stored?
  }

  function LineStep(l: Setting, s: Race): Race
    requires s.pc < DONE
  {
    var t := s.(pc := s.pc + 1);
    match s.pc
    case 0 => t.(tmp := (s.ier & !l.clear) | l.add)
    case 1 => t.(ier := s.tmp)
    case 2 => t.(uart := OutB(s.uart, LCR, l.cval | LCR_DLAB))
    case 3 => t.(uart := OutB(s.uart, TX, ToByte(l.quot)))
    case 4 => t.(uart := OutB(s.uart, IER, ToByte(l.quot / 256)))
    case 5 => t.(uart := OutB(s.uart, FCR, l.fcr))
    case 6 => t.(uart := OutB(s.uart, LCR, l.cval))
    case 7 => t.(uart := OutB(s.uart, MCR, l.mcr))
    case _ => t.(uart := OutB(s.uart, IER, s.ier))
  }

  function Step(l: Setting, s: Race, e: Event): Race
    requires Enabled(s, e)
  {
    match e
    case Line => LineStep(l, s)
    case Load => if s.ier & IER_THRI == 0 then s.(starter := Loaded(s.ier | IER_THRI)) else s
    case Store => s.(ier := s.starter.v, starter := Stored)
    case Out => s.(uart := OutB(s.uart, IER, s.ier), starter := Away)
  }

  predicate EnabledRun(l: Setting, s: Race, es: seq<Event>)
    decreases |es|
  {
    es == [] || (Enabled(s, es[0]) && EnabledRun(l, Step(l, s, es[0]), es[1..]))
  }

  function Run(l: Setting, s: Race, es: seq<Event>): Race
    requires EnabledRun(l, s, es)
    decreases |es|
  {
    if es == [] then s else Run(l, Step(l, s, es[0]), es[1..])
  }

  // DLAB is open exactly between the two line control writes.
  predicate Inv(s: Race) {
    s.pc <= DONE && (LatchOpen(s.uart) <==> 3 <= s.pc <= 6)
  }

  lemma OpenLatch(cval: bv8)
    requires cval & LCR_DLAB == 0
    ensures (cval | LCR_DLAB) & LCR_DLAB != 0
  {}

  lemma LineInv(l: Setting, s: Race)
    requires Proper(l) && Inv(s) && s.pc < DONE
    ensures Inv(LineStep(l, s))
  {
    OpenLatch(l.cval);
    assert s.pc != 2 && s.pc != 6 ==> LineStep(l, s).uart.lcr == s.uart.lcr;
  }

  lemma StarterInv(l: Setting, s: Race, e: Event)
    requires Inv(s) && Enabled(s, e) && !e.Line?
    ensures Inv(Step(l, s, e))
  {
    assert Step(l, s, e).uart.lcr == s.uart.lcr;
  }

  lemma InvStep(l: Setting, s: Race, e: Event)
    requires Proper(l) && Inv(s) && Enabled(s, e)
    ensures Inv(Step(l, s, e))
  {
    if e.Line? {
      LineInv(l, s);
    } else {
      StarterInv(l, s, e);
    }
  }

  // ---- The divisor latch ----

  // The byte of the last write of the starting thread that comes after the high
  // divisor byte and before DLAB is closed.
  function LastStray(l: Setting, s: Race, es: seq<Event>): Option<bv8>
    requires EnabledRun(l, s, es)
    decreases |es|
  {
    if es == [] then None else
      var later := LastStray(l, Step(l, s, es[0]), es[1..]);
      if later.Some? then later else if es[0].Out? && 5 <= s.pc <= 6 then Some(s.ier) else None
  }

  // The latch's two bytes at the end, seen from a point of the run.
  function DllAtEnd(l: Setting, s: Race): bv8 {
    if s.pc <= 3 then ToByte(l.quot) else s.uart.dll
  }

  function DlmAtEnd(l: Setting, s: Race): bv8 {
    if s.pc <= 4 then ToByte(l.quot / 256) else s.uart.dlm
  }

  lemma DllStep(l: Setting, s: Race, e: Event)
    requires Proper(l) && Inv(s) && Enabled(s, e)
    ensures DllAtEnd(l, Step(l, s, e)) == DllAtEnd(l, s)
  {}

  lemma DlmStep(l: Setting, s: Race, e: Event)
    requires Proper(l) && Inv(s) && Enabled(s, e)
    ensures DlmAtEnd(l, Step(l, s, e)) == if e.Out? && 5 <= s.pc <= 6 then s.ier else DlmAtEnd(l, s)
  {}

  lemma {:induction false} LatchAtEnd(l: Setting, s: Race, es: seq<Event>)
    requires Proper(l) && Inv(s) && EnabledRun(l, s, es) && Run(l, s, es).pc > 6
    ensures var r := Run(l, s, es); var stray := LastStray(l, s, es);
            Inv(r) && r.uart.dll == DllAtEnd(l, s) && r.uart.dlm == if stray.Some? then stray.value else DlmAtEnd(l, s)
    decreases |es|
  {
    if es == [] {
    } else {
      InvStep(l, s, es[0]);
      DllStep(l, s, es[0]);
      DlmStep(l, s, es[0]);
      LatchAtEnd(l, Step(l, s, es[0]), es[1..]);
    }
  }

  lemma NibbleInjective(a: bv8, b: bv8)
    requires NibbleValue(a) == NibbleValue(b)
    ensures a & 0x0F == b & 0x0F
  {}

  lemma ValueInjective(a: bv8, b: bv8)
    requires Value(a) == Value(b)
    ensures a == b
  {
    NibbleInjective(a & 0x0F, b & 0x0F);
    NibbleInjective(a >> 4, b >> 4);
  }

  // However a start runs beside it, set_termios leaves the latch with its divisor
  // exactly when the start writes nothing between the high divisor byte and the
  // closing of DLAB, or the last it writes there happens to be that byte.
  lemma LatchKeptIff(l: Setting, s: Race, es: seq<Event>)
    requires Proper(l) && Inv(s) && s.pc == 0 && EnabledRun(l, s, es) && Run(l, s, es).pc > 6
    ensures var stray := LastStray(l, s, es);
            Latch(Run(l, s, es).uart) == l.quot % 65536 <==> stray == None || stray == Some(ToByte(l.quot / 256))
  {
    var u := Run(l, s, es).uart;
    LatchAtEnd(l, s, es);
    LatchBytes(u.(dlm := ToByte(l.quot / 256)), l.quot);
    if Latch(u) == l.quot % 65536 {
      ValueInjective(u.dlm, ToByte(l.quot / 256));
    }
  }

  // ---- The other registers ----

  // The interrupt enable register is its shadow at the end, unless a write of the
  // starting thread is still to come.
  predicate IerWritten(s: Race) {
    s.pc == DONE ==> s.starter.Stored? || s.uart.ier == s.ier
  }

  // The line control register holds what was asked for.
  predicate LineWritten(l: Setting, s: Race) {
    s.pc > 6 ==> s.uart.lcr == l.cval
  }

  lemma LineWrites(l: Setting, s: Race)
    requires Proper(l) && Inv(s) && s.pc < DONE && LineWritten(l, s)
    ensures LineWritten(l, LineStep(l, s)) && LineStep(l, s).uart.thr == s.uart.thr
  {}

  lemma LineWritesIer(l: Setting, s: Race)
    requires Inv(s) && s.pc < DONE
    ensures IerWritten(LineStep(l, s))
  {}

  lemma StarterWrites(l: Setting, s: Race, e: Event)
    requires Inv(s) && Enabled(s, e) && !e.Line? && IerWritten(s) && LineWritten(l, s)
    ensures IerWritten(Step(l, s, e)) && LineWritten(l, Step(l, s, e))
    ensures Step(l, s, e).uart.thr == s.uart.thr
  {}

  lemma WrittenStep(l: Setting, s: Race, e: Event)
    requires Proper(l) && Inv(s) && Enabled(s, e) && IerWritten(s) && LineWritten(l, s)
    ensures IerWritten(Step(l, s, e)) && LineWritten(l, Step(l, s, e))
    ensures Step(l, s, e).uart.thr == s.uart.thr
  {
    if e.Line? {
      LineWrites(l, s);
      LineWritesIer(l, s);
    } else {
      StarterWrites(l, s, e);
    }
  }

  // Whatever a start does meanwhile: DLAB is closed at the end, line control is as
  // asked, the interrupt enable register equals its shadow once the start is over,
  // and no byte of the divisor went to the transmitter.
  lemma {:induction false} RegistersAtEnd(l: Setting, s: Race, es: seq<Event>)
    requires Proper(l) && Inv(s) && IerWritten(s) && LineWritten(l, s) && EnabledRun(l, s, es)
    ensures var r := Run(l, s, es);
            && Inv(r) && IerWritten(r) && r.uart.thr == s.uart.thr
            && (r.pc == DONE ==> !LatchOpen(r.uart) && r.uart.lcr == l.cval)
            && (r.pc == DONE && r.starter.Away? ==> r.uart.ier == r.ier)
    decreases |es|
  {
    if es == [] {
    } else {
      InvStep(l, s, es[0]);
      WrittenStep(l, s, es[0]);
      RegistersAtEnd(l, Step(l, s, es[0]), es[1..]);
    }
  }

  // ---- The transmit interrupt ----

  // The starting thread writes the shadow other than between set_termios's read of
  // it and the write that follows.
  predicate StoresOutside(l: Setting, s: Race, es: seq<Event>)
    requires EnabledRun(l, s, es)
    decreases |es|
  {
    es != [] && ((es[0].Store? && s.pc != 1) || StoresOutside(l, Step(l, s, es[0]), es[1..]))
  }

  predicate Thri(b: bv8) {
    b & IER_THRI != 0
  }

  // What set_termios is going to leave, as far as the transmit interrupt goes
  predicate Pending(s: Race) {
    if s.pc == 1 then Thri(s.tmp) else Thri(s.ier)
  }

  predicate LoadedThri(s: Race) {
    s.starter.Loaded? ==> Thri(s.starter.v)
  }

  lemma KeepsThri(ier: bv8, clear: bv8, add: bv8)
    requires clear & IER_THRI == 0 && add & IER_THRI == 0
    ensures Thri((ier & !clear) | add) <==> Thri(ier)
    ensures Thri(ier | IER_THRI)
  {}

  lemma LineShadow(l: Setting, s: Race)
    requires s.pc < DONE
    ensures var t := LineStep(l, s);
            && t.starter == s.starter && t.pc == s.pc + 1
            && t.tmp == (if s.pc == 0 then (s.ier & !l.clear) | l.add else s.tmp)
            && t.ier == (if s.pc == 1 then s.tmp else s.ier)
  {}

  lemma ThriMoves(l: Setting, s: Race, t: Race)
    requires Proper(l) && t.pc == s.pc + 1
    requires t.tmp == (if s.pc == 0 then (s.ier & !l.clear) | l.add else s.tmp)
    requires t.ier == (if s.pc == 1 then s.tmp else s.ier)
    ensures Pending(t) <==> Pending(s)
  {
    KeepsThri(s.ier, l.clear, l.add);
  }

  lemma ThriLine(l: Setting, s: Race)
    requires Proper(l) && s.pc < DONE
    ensures LineStep(l, s).starter == s.starter && (Pending(LineStep(l, s)) <==> Pending(s))
  {
    LineShadow(l, s);
    ThriMoves(l, s, LineStep(l, s));
  }

  lemma ThriStarter(l: Setting, s: Race, e: Event)
    requires Enabled(s, e) && LoadedThri(s) && !e.Line?
    ensures LoadedThri(Step(l, s, e))
    ensures Pending(Step(l, s, e)) <==> Pending(s) || (e.Store? && s.pc != 1)
  {
    var t := Step(l, s, e);
    match e
    case Load => KeepsThri(s.ier, 0, 0); assert t.ier == s.ier && t.tmp == s.tmp && t.pc == s.pc;
    case Store => assert t.ier == s.starter.v && t.tmp == s.tmp && t.pc == s.pc;
    case Out => assert t.ier == s.ier && t.tmp == s.tmp && t.pc == s.pc;
  }

  lemma ThriStep(l: Setting, s: Race, e: Event)
    requires Proper(l) && Enabled(s, e) && LoadedThri(s)
    ensures LoadedThri(Step(l, s, e))
    ensures Pending(Step(l, s, e)) <==> Pending(s) || (e.Store? && s.pc != 1)
  {
    if e.Line? {
      ThriLine(l, s);
    } else {
      ThriStarter(l, s, e);
    }
  }

  // A transmit interrupt enabled beforehand stays so, and one that a start enables
  // meanwhile is there at the end exactly when the start writes the shadow outside
  // set_termios's own read and write of it.
  lemma {:induction false} ThriKeptIff(l: Setting, s: Race, es: seq<Event>)
    requires Proper(l) && LoadedThri(s) && EnabledRun(l, s, es) && Run(l, s, es).pc > 1
    ensures Thri(Run(l, s, es).ier) <==> Pending(s) || StoresOutside(l, s, es)
    decreases |es|
  {
    if es == [] {
    } else {
      ThriStep(l, s, es[0]);
      ThriKeptIff(l, Step(l, s, es[0]), es[1..]);
    }
  }

  // ---- The other interrupts ----

  // All of the shadow but the transmit interrupt: the modem status interrupt is in it.
  function Rest(b: bv8): bv8 {
    b & !IER_THRI
  }

  function Wanted(l: Setting, b: bv8): bv8 {
    (b & !l.clear) | l.add
  }

  lemma RestOf(b: bv8)
    ensures Rest(b | IER_THRI) == Rest(b)
  {}

  lemma RestWanted(l: Setting, a: bv8, b: bv8)
    requires Rest(a) == Rest(b)
    ensures Rest(Wanted(l, a)) == Rest(Wanted(l, b))
  {}

  // The starting thread writes, after set_termios's write of the shadow, a value that
  // it read before; `early` tells of the value it holds.
  predicate StaleStore(l: Setting, s: Race, es: seq<Event>, early: bool)
    requires EnabledRun(l, s, es)
    decreases |es|
  {
    es != [] &&
    ((es[0].Store? && early && s.pc >= 2) || StaleStore(l, Step(l, s, es[0]), es[1..], Early(s, es[0], early)))
  }

  predicate Early(s: Race, e: Event, early: bool) {
    if e.Load? then s.pc <= 1 else early && !e.Store?
  }

  // The value in hand agrees with the shadow as it is now.
  predicate Current(s: Race) {
    s.starter.Loaded? ==> Rest(s.starter.v) == Rest(s.ier)
  }

  lemma CurrentStarter(l: Setting, s: Race, e: Event)
    requires Enabled(s, e) && !e.Line? && Current(s)
    ensures Current(Step(l, s, e)) && Rest(Step(l, s, e).ier) == Rest(s.ier)
    ensures Step(l, s, e).pc == s.pc && Step(l, s, e).tmp == s.tmp
  {
    RestOf(s.ier);
  }

  // Once the shadow is written and nothing stale is in hand, the rest stays.
  lemma {:induction false} RestStays(l: Setting, s: Race, es: seq<Event>, early: bool)
    requires EnabledRun(l, s, es) && s.pc >= 2 && Current(s) && (s.starter.Loaded? ==> !early)
    ensures Rest(Run(l, s, es).ier) == Rest(s.ier) && !StaleStore(l, s, es, early)
    decreases |es|
  {
    if es == [] {
    } else {
      if es[0].Line? {
        LineShadow(l, s);
      } else {
        CurrentStarter(l, s, es[0]);
      }
      RestStays(l, Step(l, s, es[0]), es[1..], Early(s, es[0], early));
    }
  }

  // With a value in hand that was read before, when the rest was r.
  lemma {:induction false} StaleAtEnd(l: Setting, s: Race, es: seq<Event>, r: bv8)
    requires EnabledRun(l, s, es) && s.pc >= 2 && s.starter.Loaded? && Rest(s.starter.v) == r
    ensures Rest(Run(l, s, es).ier) == if StaleStore(l, s, es, true) then r else Rest(s.ier)
    decreases |es|
  {
    if es == [] {
    } else {
      var t := Step(l, s, es[0]);
      if es[0].Line? {
        LineShadow(l, s);
        StaleAtEnd(l, t, es[1..], r);
      } else {
        assert t.starter == Stored && t.ier == s.starter.v && t.pc == s.pc;
        RestStays(l, t, es[1..], false);
      }
    }
  }

  // Before set_termios's write, when the rest is r and is to be w.
  predicate Before(l: Setting, s: Race, early: bool, r: bv8, w: bv8) {
    && s.pc <= 1 && Current(s) && Rest(s.ier) == r && (s.starter.Loaded? ==> early)
    && if s.pc == 0 then Rest(Wanted(l, s.ier)) == w else Rest(s.tmp) == w
  }

  lemma BeforeLine(l: Setting, s: Race, early: bool, r: bv8, w: bv8)
    requires Before(l, s, early, r, w) && s.pc == 0
    ensures Before(l, LineStep(l, s), Early(s, Line, early), r, w)
  {
    LineShadow(l, s);
  }

  lemma BeforeStarter(l: Setting, s: Race, e: Event, early: bool, r: bv8, w: bv8)
    requires Before(l, s, early, r, w) && Enabled(s, e) && !e.Line?
    ensures Before(l, Step(l, s, e), Early(s, e, early), r, w)
  {
    CurrentStarter(l, s, e);
    RestWanted(l, s.ier, Step(l, s, e).ier);
  }

  lemma AtWrite(l: Setting, s: Race, es: seq<Event>, early: bool, r: bv8, w: bv8)
    requires Before(l, s, early, r, w) && s.pc == 1 && EnabledRun(l, LineStep(l, s), es)
    ensures var t := LineStep(l, s); Rest(Run(l, t, es).ier) == if StaleStore(l, t, es, early) then r else w
  {
    LineShadow(l, s);
    if s.starter.Loaded? {
      StaleAtEnd(l, LineStep(l, s), es, r);
    } else {
      RestStays(l, LineStep(l, s), es, early);
    }
  }

  predicate Ends(l: Setting, s: Race, es: seq<Event>, early: bool, r: bv8, w: bv8)
    requires EnabledRun(l, s, es)
  {
    Rest(Run(l, s, es).ier) == if StaleStore(l, s, es, early) then r else w
  }

  lemma EndsStep(l: Setting, s: Race, es: seq<Event>, early: bool, r: bv8, w: bv8)
    requires EnabledRun(l, s, es) && es != [] && s.pc <= 1
    requires Ends(l, Step(l, s, es[0]), es[1..], Early(s, es[0], early), r, w)
    ensures Ends(l, s, es, early, r, w)
  {}

  lemma {:induction false} RestAtEnd(l: Setting, s: Race, es: seq<Event>, early: bool, r: bv8, w: bv8)
    requires Before(l, s, early, r, w) && EnabledRun(l, s, es) && Run(l, s, es).pc > 1
    ensures Ends(l, s, es, early, r, w)
    decreases |es|
  {
    if es == [] {
    } else {
      if !es[0].Line? {
        BeforeStarter(l, s, es[0], early, r, w);
        RestAtEnd(l, Step(l, s, es[0]), es[1..], Early(s, es[0], early), r, w);
      } else if s.pc == 0 {
        BeforeLine(l, s, early, r, w);
        RestAtEnd(l, Step(l, s, es[0]), es[1..], early, r, w);
      } else {
        AtWrite(l, s, es[1..], early, r, w);
      }
      EndsStep(l, s, es, early, r, w);
    }
  }

  lemma MsiIsRest(a: bv8, b: bv8)
    requires Rest(a) == Rest(b)
    ensures a & IER_MSI == b & IER_MSI
  {}

  // The interrupts that set_termios asks for, the modem status interrupt among them,
  // are there at the end exactly when no start writes back, after set_termios wrote
  // the shadow, what it read before, or when nothing was to change.
  lemma RestKeptIff(l: Setting, s: Race, es: seq<Event>)
    requires EnabledRun(l, s, es) && s.pc == 0 && Current(s) && Run(l, s, es).pc > 1
    ensures var stale, end, want := StaleStore(l, s, es, true), Run(l, s, es).ier, Wanted(l, s.ier);
            && (Rest(end) == Rest(want) <==> !stale || Rest(s.ier) == Rest(want))
            && (end & IER_MSI == want & IER_MSI <==> !stale || s.ier & IER_MSI == want & IER_MSI)
  {
    RestAtEnd(l, s, es, true, Rest(s.ier), Rest(Wanted(l, s.ier)));
    MsiIsRest(Run(l, s, es).ier, if StaleStore(l, s, es, true) then s.ier else Wanted(l, s.ier));
  }

  // ---- The three failures ----

  // 9600 baud, divisor 96, receive and line status interrupts enabled
  const PLAIN: Setting := Setting(IER_MSI, 0, LCR_WLEN8, 96, 0, 0)
  const IDLE: Race := Race(Regs([], 0x05, 0, LCR_WLEN8, 0, 0, 0), 0x05, 0, 0, Away)

  predicate Leads(s: Race, es: seq<Event>, t: Race, l: Setting := PLAIN) {
    EnabledRun(l, s, es) && Run(l, s, es) == t
  }

  lemma {:induction false} Then(s: Race, es: seq<Event>, t: Race, fs: seq<Event>, u: Race, l: Setting := PLAIN)
    requires Leads(s, es, t, l) && Leads(t, fs, u, l)
    ensures Leads(s, es + fs, u, l)
    decreases |es|
  {
    if es == [] {
      assert es + fs == fs;
    } else {
      assert (es + fs)[0] == es[0] && (es + fs)[1..] == es[1..] + fs;
      Then(Step(l, s, es[0]), es[1..], t, fs, u, l);
    }
  }

  // A start that writes the interrupt enable register just after the high divisor
  // byte
  const OPENED: Race := Race(Regs([], 0x05, 0, 0x83, 0, 0, 0), 0x05, 3, 0x05, Away)
  const LATCHED: Race := Race(Regs([], 0x05, 0, 0x83, 0, 0x60, 0), 0x05, 5, 0x05, Away)
  const STRAYED: Race := Race(Regs([], 0x05, 0, 0x83, 0, 0x60, 0x07), 0x07, 5, 0x05, Away)
  const CLOSED: Race := Race(Regs([], 0x05, 0, 0x03, 0, 0x60, 0x07), 0x07, 7, 0x05, Away)
  const MISSET: Race := Race(Regs([], 0x07, 0, 0x03, 0, 0x60, 0x07), 0x07, 9, 0x05, Away)

  lemma Divisor96()
    ensures ToByte(96) == 0x60 && ToByte(96 / 256) == 0
  {}

  lemma ToOpened() ensures Leads(IDLE, [Line, Line, Line], OPENED) {}

  lemma ToLatched()
    ensures Leads(OPENED, [Line, Line], LATCHED)
  {
    Divisor96();
  }

  lemma ToStrayed() ensures Leads(LATCHED, [Load, Store, Out], STRAYED) {}

  lemma ToClosed() ensures Leads(STRAYED, [Line, Line], CLOSED) {}

  lemma ToMisset() ensures Leads(CLOSED, [Line, Line], MISSET) {}

  // leaves the divisor 1888 in the latch in place of 96.
  lemma LatchSpoilt() returns (es: seq<Event>)
    ensures Leads(IDLE, es, MISSET) && MISSET.pc == DONE && MISSET.starter == Away
    ensures PLAIN.quot == 96 && Latch(MISSET.uart) == 1888
  {
    ToOpened();
    ToLatched();
    ToStrayed();
    ToClosed();
    ToMisset();
    Then(IDLE, [Line, Line, Line], OPENED, [Line, Line], LATCHED);
    es := [Line, Line, Line] + [Line, Line];
    Then(IDLE, es, LATCHED, [Load, Store, Out], STRAYED);
    es := es + [Load, Store, Out];
    Then(IDLE, es, STRAYED, [Line, Line], CLOSED);
    es := es + [Line, Line];
    Then(IDLE, es, CLOSED, [Line, Line], MISSET);
    es := es + [Line, Line];
  }

  const READ: Race := Race(Regs([], 0x05, 0, LCR_WLEN8, 0, 0, 0), 0x07, 1, 0x05, Stored)
  const UNDONE: Race := Race(Regs([], 0x05, 0, LCR_WLEN8, 0, 0, 0), 0x05, 2, 0x05, Away)

  // A start that writes the shadow between set_termios's read and write of it is
  // over, and the transmit interrupt is enabled neither in shadow nor in register.
  lemma InterruptLost()
    ensures Leads(IDLE, [Line, Load, Store] + [Line, Out], UNDONE)
    ensures UNDONE.starter == Away && !Thri(UNDONE.ier) && !Thri(UNDONE.uart.ier)
  {
    assert Leads(IDLE, [Line, Load, Store], READ);
    assert Leads(READ, [Line, Out], UNDONE);
    Then(IDLE, [Line, Load, Store], READ, [Line, Out], UNDONE);
  }

  // The same setting with CTS flow control, which asks for modem status interrupts
  const CTS: Setting := Setting(IER_MSI, IER_MSI, LCR_WLEN8, 96, 0, 0)
  const ARMED: Race := Race(Regs([], 0x05, 0, LCR_WLEN8, 0, 0, 0), 0x0D, 2, 0x0D, Loaded(0x07))
  const UNARMED: Race := Race(Regs([], 0x07, 0, LCR_WLEN8, 0, 0, 0), 0x07, 2, 0x0D, Away)

  // A start that read the shadow before set_termios did and writes it after: it is
  // over, and nobody hears CTS change.
  lemma ModemStatusLost()
    ensures Leads(IDLE, [Load, Line, Line] + [Store, Out], UNARMED, CTS)
    ensures UNARMED.starter == Away && UNARMED.ier & IER_MSI == 0 && UNARMED.uart.ier & IER_MSI == 0
    ensures Wanted(CTS, IDLE.ier) & IER_MSI != 0
  {
    assert Leads(IDLE, [Load, Line, Line], ARMED, CTS);
    assert Leads(ARMED, [Store, Out], UNARMED, CTS);
    Then(IDLE, [Load, Line, Line], ARMED, [Store, Out], UNARMED, CTS);
  }
}
