// Several clients of one port (driver/snx_ppdev.c, driver/snx_lp.c): user-space
// files, each with its own IEEE 1284 mode swapped in and out of the port, and
// printer devices, which leave the mode alone.  Claims and yields may sleep, so
// each is two steps, before and after the sleep.

module PortSharing {
  import opened Options
  import opened ControlRegister
  import opened Arbiter

  const COMPAT: bv32 := 0x100
  const DEVICEID: bv32 := 0x4
  const ADDR: bv32 := 0x2000
  const MODE_NIBBLE: bv32 := 0
  const MODE_BYTE: bv32 := 1

  datatype Phase = FwdIdle | RevIdle | OtherPhase(n: int)

  // The mode and phase a port is in (struct ieee1284_info).
  datatype Info = Info(mode: bv32, phase: Phase)

  // snx_init_phase
  function InitPhase(mode: bv32): Phase {
    var base := mode & !(DEVICEID | ADDR);
    if base == MODE_NIBBLE || base == MODE_BYTE then RevIdle else FwdIdle
  }

  const DEFAULT: Info := Info(COMPAT, InitPhase(COMPAT))

  // Whether a client's thread is inside a claim or a yield.
  datatype Call = Idle | Claiming | Yielding

  // An open file or a printer device: its claim flag, the call it is in, its own
  // mode, and the port's mode from before its claim.
  datatype Client = Client(printer: bool, claimed: bool, call: Call, state: Info, saved: Info)

  // A client together with the port's mode.
  datatype View = View(c: Client, info: Info)

  // A claim has got the port: a file puts the port's mode aside and its own in.
  function Entered(v: View): View {
    if v.c.printer then View(v.c.(call := Idle), v.info)
    else View(v.c.(claimed := true, call := Idle, saved := v.info), v.c.state)
  }

  // A release: a file takes its mode back out.
  function Left(v: View): View {
    if v.c.printer then View(v.c.(claimed := false), v.info)
    else View(v.c.(claimed := false, state := v.info), v.c.saved)
  }

  function ModeSet(v: View, mode: bv32): View {
    var state := Info(mode, InitPhase(mode));
    View(v.c.(state := state), if v.c.claimed then state else v.info)
  }

  function PhaseSet(v: View, phase: Phase): View {
    View(v.c.(state := v.c.state.(phase := phase)), if v.c.claimed then v.info.(phase := phase) else v.info)
  }

  // PPGETMODE
  function ModeOf(v: View): bv32 {
    if v.c.claimed then v.info.mode else v.c.state.mode
  }

  // Which phase a mode starts in, in numbers: nibble (0) and byte (1) mode are for
  // reading, with or without the device-id (0x4) and address (0x2000) flags.
  lemma InitPhaseOf(mode: bv32)
    ensures InitPhase(mode) == if mode & 0xFFFFDFFB == 0 || mode & 0xFFFFDFFB == 1 then RevIdle else FwdIdle
    ensures DEFAULT == Info(0x100, FwdIdle)
  {}

  // For a file, a claim puts its mode and phase in the port.  Whatever they have come
  // to at the release is the file's from then on, and the port's are those from before.
  lemma ClaimThenRelease(v: View, info: Info)
    requires !v.c.printer && !v.c.claimed
    ensures Entered(v).info == v.c.state && Entered(v).c.claimed && Entered(v).c.call == Idle
    ensures var w := Left(Entered(v).(info := info)); w.info == v.info && w.c.state == info && !w.c.claimed
  {}

  // A printer leaves mode and phase alone.
  lemma PrintersLeaveModes(v: View)
    requires v.c.printer
    ensures Entered(v).info == Left(v).info == v.info
    ensures Entered(v).c == v.c.(call := Idle) && Left(v).c == v.c.(claimed := false)
  {}

  // What PPGETMODE and PPGETPHASE tell after PPSETMODE and PPSETPHASE, claimed or not.
  lemma SetThenGet(v: View, mode: bv32, phase: Phase)
    requires v.c.claimed ==> v.info == v.c.state
    ensures ModeOf(ModeSet(v, mode)) == mode && ModeOf(PhaseSet(v, phase)) == ModeOf(v)
    ensures var w := ModeSet(v, mode); (if v.c.claimed then w.info.phase else w.c.state.phase) == InitPhase(mode)
    ensures var w := PhaseSet(v, phase); (if v.c.claimed then w.info.phase else w.c.state.phase) == phase
    ensures !v.c.claimed ==> ModeSet(v, mode).info == PhaseSet(v, phase).info == v.info
    ensures v.c.claimed ==> ModeSet(v, mode).info == ModeSet(v, mode).c.state && PhaseSet(v, phase).info == PhaseSet(v, phase).c.state
  {}

  datatype Sys<D(==)> = Sys(arb: Arb<D>, info: Info, clients: map<D, Client>)

  datatype Event<D> =
    | Open(d: D, printer: bool)
    | Claim(d: D, irq: bool)
    | Granted(d: D)
    | Release(d: D)
    | Yield(d: D, expired: bool)
    | SetMode(d: D, mode: bv32)
    | SetPhase(d: D, phase: Phase)
    | Transfer(d: D, phase: Phase)
    | Close(d: D)

  function Start<D>(): Sys<D> {
    Sys(Arb(None, [], INITIAL_CTR, map[]), DEFAULT, map[])
  }

  function ViewOf<D>(s: Sys<D>, d: D): View
    requires d in s.clients
  {
    View(s.clients[d], s.info)
  }

  function Put<D>(s: Sys<D>, d: D, v: View): Sys<D> {
    s.(clients := s.clients[d := v.c], info := v.info)
  }

  // A client acts only when its last call is over; a call that slept ends once its
  // device owns the port.  A file in another mode that is closed without a claim
  // claims first.
  predicate Enabled<D>(s: Sys<D>, e: Event<D>) {
    if e.Open? then e.d !in s.clients
    else if e.d !in s.clients then false
    else
      var c := s.clients[e.d];
      match e
      case Granted(d) => c.call != Idle && s.arb.owner == Some(d)
      case Claim(_, _) => c.call == Idle && !c.claimed
      case Release(_) => c.call == Idle && c.claimed
      case Yield(_, _) => c.call == Idle && c.claimed
      case SetMode(_, _) => c.call == Idle && !c.printer
      case SetPhase(_, _) => c.call == Idle && !c.printer
      case Transfer(_, _) => c.call == Idle && c.claimed
      case Close(d) => c.call == Idle && (c.claimed || c.state.mode == COMPAT || d !in s.arb.saved)
      case _ => false
  }

  // A printer's device is registered for good, a file's on its first claim.
  function Opened<D>(s: Sys<D>, d: D, printer: bool): Sys<D> {
    Sys(if printer then Registered(s.arb, d, false) else s.arb, s.info,
        s.clients[d := Client(printer, false, Idle, DEFAULT, DEFAULT)])
  }

  // What opening starts with, in numbers: compatibility mode, and for a printer the
  // control byte of a device without interrupt.
  lemma OpenedNumbers<D>(s: Sys<D>, d: D, printer: bool)
    ensures var t := Opened(s, d, printer);
            && t.clients == s.clients[d := Client(printer, false, Idle, Info(0x100, FwdIdle), Info(0x100, FwdIdle))]
            && t.arb == (if printer then s.arb.(saved := s.arb.saved[d := 0x0C]) else s.arb) && t.info == s.info
  {}

  // A printer sets its claim bit before it asks for the port, a file once it has it.
  function ClaimBegun<D>(s: Sys<D>, d: D, irq: bool): Sys<D>
    requires d in s.clients
  {
    var a := if d in s.arb.saved then s.arb else Registered(s.arb, d, irq);
    var c := s.clients[d];
    Sys(Claimed(a, d, true), s.info, s.clients[d := c.(call := Claiming, claimed := c.printer)])
  }

  function CallOver<D>(s: Sys<D>, d: D): Sys<D>
    requires d in s.clients
  {
    if s.clients[d].call == Claiming then Put(s, d, Entered(ViewOf(s, d)))
    else s.(clients := s.clients[d := s.clients[d].(call := Idle)])
  }

  function ClientReleased<D>(s: Sys<D>, d: D): Sys<D>
    requires Arbiter.Inv(s.arb) && d in s.clients && d in s.arb.saved
  {
    Put(s, d, Left(ViewOf(s, d))).(arb := Released(s.arb, d))
  }

  function YieldBegun<D>(s: Sys<D>, d: D, expired: bool): Sys<D>
    requires Arbiter.Inv(s.arb) && d in s.clients && d in s.arb.saved
  {
    Sys(Yielded(s.arb, d, expired), s.info, s.clients[d := s.clients[d].(call := Yielding)])
  }

  function Closed<D>(s: Sys<D>, d: D): Sys<D>
    requires Arbiter.Inv(s.arb) && d in s.clients
  {
    Sys(if d in s.arb.saved then Unregistered(s.arb, d) else s.arb,
        if s.clients[d].claimed then Left(ViewOf(s, d)).info else s.info,
        s.clients - {d})
  }

  function Step<D>(s: Sys<D>, e: Event<D>): Sys<D>
    requires Inv(s) && Enabled(s, e)
  {
    match e
    case Open(d, printer) => Opened(s, d, printer)
    case Claim(d, irq) => ClaimBegun(s, d, irq)
    case Granted(d) => CallOver(s, d)
    case Release(d) => ClientReleased(s, d)
    case Yield(d, expired) => YieldBegun(s, d, expired)
    case SetMode(d, mode) => Put(s, d, ModeSet(ViewOf(s, d), mode))
    case SetPhase(d, phase) => Put(s, d, PhaseSet(ViewOf(s, d), phase))
    case Transfer(d, phase) => s.(info := s.info.(phase := phase))
    case Close(d) => Closed(s, d)
  }

  // A transfer moves the port to another phase and changes nothing else.
  lemma TransferKeeps<D>(s: Sys<D>, d: D, phase: Phase)
    requires Inv(s) && Enabled(s, Transfer(d, phase))
    ensures var t := Step(s, Transfer(d, phase));
            t.info.phase == phase && t.info.mode == s.info.mode && t.arb == s.arb && t.clients == s.clients
  {}

  // ---- Who owns the port ----

  // Between its calls a client's flag is set exactly when its device owns the port;
  // inside a call the device owns the port or waits for it.
  predicate ClientOk<D>(a: Arb<D>, d: D, c: Client) {
    && (c.call == Idle ==> d !in a.queue && (c.claimed <==> a.owner == Some(d)))
    && (c.call != Idle ==> a.owner == Some(d) || d in a.queue)
    && (c.call == Claiming ==> (c.claimed <==> c.printer))
    && (c.call == Yielding ==> c.claimed)
    && (c.printer ==> d in a.saved)
  }

  predicate Inv<D>(s: Sys<D>) {
    && Arbiter.Inv(s.arb)
    && (forall d <- s.arb.saved :: d in s.clients)
    && (forall d <- s.clients :: ClientOk(s.arb, d, s.clients[d]))
  }

  lemma OpenedInv<D>(s: Sys<D>, d: D, printer: bool)
    requires Inv(s) && d !in s.clients
    ensures Inv(Opened(s, d, printer))
  {}

  lemma ClaimBegunInv<D>(s: Sys<D>, d: D, irq: bool)
    requires Inv(s) && Enabled(s, Event.Claim(d, irq))
    ensures Inv(ClaimBegun(s, d, irq))
  {}

  lemma CallOverInv<D>(s: Sys<D>, d: D)
    requires Inv(s) && Enabled(s, Granted(d))
    ensures Inv(CallOver(s, d))
  {}

  lemma ClientReleasedInv<D>(s: Sys<D>, d: D)
    requires Inv(s) && Enabled(s, Event.Release(d))
    ensures Inv(ClientReleased(s, d))
  {
    ReleasedInv(s.arb, d);
  }

  lemma YieldBegunInv<D>(s: Sys<D>, d: D, expired: bool)
    requires Inv(s) && Enabled(s, Event.Yield(d, expired))
    ensures Inv(YieldBegun(s, d, expired))
  {
    ReleasedInv(s.arb, d);
  }

  lemma ClosedInv<D>(s: Sys<D>, d: D)
    requires Inv(s) && Enabled(s, Close(d))
    ensures Inv(Closed(s, d))
  {
    if d in s.arb.saved {
      UnregisteredInv(s.arb, d);
    }
  }

  lemma InvStep<D>(s: Sys<D>, e: Event<D>)
    requires Inv(s) && Enabled(s, e)
    ensures Inv(Step(s, e))
  {
    match e
    case Open(d, printer) => OpenedInv(s, d, printer);
    case Claim(d, irq) => ClaimBegunInv(s, d, irq);
    case Granted(d) => CallOverInv(s, d);
    case Release(d) => ClientReleasedInv(s, d);
    case Yield(d, expired) => YieldBegunInv(s, d, expired);
    case Close(d) => ClosedInv(s, d);
    case _ =>
  }

  predicate EnabledRun<D>(s: Sys<D>, es: seq<Event<D>>)
    requires Inv(s)
    decreases |es|
  {
    es == [] || (Enabled(s, es[0]) && (InvStep(s, es[0]); EnabledRun(Step(s, es[0]), es[1..])))
  }

  function Run<D>(s: Sys<D>, es: seq<Event<D>>): (r: Sys<D>)
    requires Inv(s) && EnabledRun(s, es)
    ensures Inv(r)
    decreases |es|
  {
    if es == [] then s else
      InvStep(s, es[0]);
      Run(Step(s, es[0]), es[1..])
  }

  // After any run at all, a client between calls has its flag set exactly when its
  // device owns the port, so at most one of them has.
  lemma ClaimedIsOwner<D>(es: seq<Event<D>>, d: D, e: D)
    requires EnabledRun(Start(), es)
    requires var s := Run(Start(), es);
             && d in s.clients && s.clients[d].call == Idle
             && e in s.clients && s.clients[e].call == Idle
    ensures var s := Run(Start(), es);
            && (s.clients[d].claimed <==> s.arb.owner == Some(d))
            && (s.clients[d].claimed && s.clients[e].claimed ==> d == e)
  {}

  // ---- Private modes ----

  // A file that holds the port has its mode in it.
  predicate Inside<D>(s: Sys<D>) {
    s.arb.owner.Some? && s.arb.owner.value in s.clients &&
    var c := s.clients[s.arb.owner.value];
    !c.printer && c.claimed
  }

  // The file inside has its own mode in the port and compatibility mode put aside
  // for later; otherwise the port is in compatibility mode.
  predicate ModesOk<D>(s: Sys<D>) {
    && s.info.mode == (if Inside(s) then s.clients[s.arb.owner.value].state.mode else COMPAT)
    && (forall d <- s.clients :: !s.clients[d].printer && s.clients[d].claimed ==>
          s.clients[d].saved.mode == COMPAT && (s.arb.owner == Some(d) || s.clients[d].state.mode == COMPAT))
  }

  // A yield that gives the port away out of compatibility mode leaves the
  // yielding file's mode behind for the next client.
  predicate LeaksMode<D>(s: Sys<D>, e: Event<D>) {
    e.Yield? && e.expired && s.arb.queue != [] && s.info.mode != COMPAT
  }

  lemma ModesYield<D>(s: Sys<D>, d: D, expired: bool)
    requires Inv(s) && ModesOk(s) && Enabled(s, Event.Yield(d, expired))
    ensures ModesOk(YieldBegun(s, d, expired)) <==> !LeaksMode(s, Event.Yield(d, expired))
  {}

  lemma ModesReleased<D>(s: Sys<D>, d: D)
    requires Inv(s) && ModesOk(s) && Enabled(s, Event.Release(d))
    ensures ModesOk(ClientReleased(s, d))
  {}

  lemma ModesClosed<D>(s: Sys<D>, d: D)
    requires Inv(s) && ModesOk(s) && Enabled(s, Close(d))
    ensures ModesOk(Closed(s, d))
  {}

  lemma ModesClaimed<D>(s: Sys<D>, d: D, irq: bool)
    requires Inv(s) && ModesOk(s) && Enabled(s, Event.Claim(d, irq))
    ensures ModesOk(ClaimBegun(s, d, irq))
  {}

  lemma ModesGranted<D>(s: Sys<D>, d: D)
    requires Inv(s) && ModesOk(s) && Enabled(s, Granted(d))
    ensures ModesOk(CallOver(s, d))
  {}

  // A step keeps the modes apart exactly when it is no such yield.
  lemma ModesStep<D>(s: Sys<D>, e: Event<D>)
    requires Inv(s) && ModesOk(s) && Enabled(s, e)
    ensures ModesOk(Step(s, e)) <==> !LeaksMode(s, e)
  {
    match e
    case Claim(d, irq) => ModesClaimed(s, d, irq);
    case Granted(d) => ModesGranted(s, d);
    case Yield(d, expired) => ModesYield(s, d, expired);
    case Release(d) => ModesReleased(s, d);
    case Close(d) => ModesClosed(s, d);
    case _ =>
  }

  predicate LeakFree<D>(s: Sys<D>, es: seq<Event<D>>)
    requires Inv(s) && EnabledRun(s, es)
    decreases |es|
  {
    es == [] || (!LeaksMode(s, es[0]) && (InvStep(s, es[0]); LeakFree(Step(s, es[0]), es[1..])))
  }

  // The mode a file asked for last: compatibility mode when it was opened, then
  // whatever PPSETMODE said, nothing once it is closed.
  function Asked<D(==)>(k: Option<bv32>, e: Event<D>, d: D): Option<bv32> {
    if e.d != d then k
    else if e.Open? then Some(COMPAT)
    else if e.SetMode? then Some(e.mode)
    else if e.Close? then None
    else k
  }

  function LastAsked<D(==)>(k: Option<bv32>, es: seq<Event<D>>, d: D): Option<bv32>
    decreases |es|
  {
    if es == [] then k else LastAsked(Asked(k, es[0], d), es[1..], d)
  }

  function OwnMode<D>(s: Sys<D>, d: D): Option<bv32> {
    if d in s.clients then Some(s.clients[d].state.mode) else None
  }

  lemma OwnModeStep<D>(s: Sys<D>, e: Event<D>, d: D)
    requires Inv(s) && ModesOk(s) && Enabled(s, e)
    ensures OwnMode(Step(s, e), d) == Asked(OwnMode(s, d), e, d)
  {
    if e.d in s.clients {
      assert ClientOk(s.arb, e.d, s.clients[e.d]);
    }
  }

  // Only leaks make the modes mix.
  lemma {:induction false} ModesRun<D>(s: Sys<D>, es: seq<Event<D>>)
    requires Inv(s) && ModesOk(s) && EnabledRun(s, es) && LeakFree(s, es)
    ensures ModesOk(Run(s, es))
    decreases |es|
  {
    if es == [] {
    } else {
      InvStep(s, es[0]);
      ModesStep(s, es[0]);
      ModesRun(Step(s, es[0]), es[1..]);
    }
  }

  lemma {:induction false} OwnModeRun<D>(s: Sys<D>, es: seq<Event<D>>, d: D)
    requires Inv(s) && ModesOk(s) && EnabledRun(s, es) && LeakFree(s, es)
    ensures OwnMode(Run(s, es), d) == LastAsked(OwnMode(s, d), es, d)
    decreases |es|
  {
    if es == [] {
    } else {
      InvStep(s, es[0]);
      ModesStep(s, es[0]);
      OwnModeStep(s, es[0], d);
      OwnModeRun(Step(s, es[0]), es[1..], d);
    }
  }

  // PPGETMODE gives a file the mode it asked for last, whatever the others did.
  lemma PrivateMode<D>(es: seq<Event<D>>, d: D)
    requires EnabledRun(Start(), es) && LeakFree(Start(), es)
    requires var s := Run(Start(), es);
             d in s.clients && !s.clients[d].printer && s.clients[d].call == Idle
    ensures Some(ModeOf(ViewOf(Run(Start(), es), d))) == LastAsked(None, es, d)
  {
    var s := Run(Start(), es);
    ModesRun(Start(), es);
    OwnModeRun(Start(), es, d);
    assert ClientOk(s.arb, d, s.clients[d]);
  }

  // While no client has its flag set, the port is in compatibility mode.
  lemma IdlePortIsCompatible<D>(es: seq<Event<D>>)
    requires EnabledRun(Start(), es) && LeakFree(Start(), es)
    requires var s := Run(Start(), es); forall d <- s.clients :: !s.clients[d].claimed
    ensures Run(Start(), es).info.mode == COMPAT
  {
    ModesRun(Start(), es);
  }

  // ---- A leak ----

  const EPP: bv32 := 0x40

  function File(claimed: bool, call: Call, mode: bv32, saved: bv32): Client {
    Client(false, claimed, call, Info(mode, FwdIdle), Info(saved, FwdIdle))
  }

  const FRESH: Client := File(false, Idle, COMPAT, COMPAT)
  const ONE: map<int, bv8> := map[0 := INITIAL_CTR]
  const BOTH: map<int, bv8> := map[0 := INITIAL_CTR, 1 := INITIAL_CTR]

  function World(owner: Option<int>, queue: seq<int>, saved: map<int, bv8>, mode: bv32, zero: Client, one: Client): Sys<int> {
    Sys(Arb(owner, queue, INITIAL_CTR, saved), Info(mode, FwdIdle), map[0 := zero, 1 := one])
  }

  const OPENED0: Sys<int> := Sys(Arb(None, [], INITIAL_CTR, map[]), Info(COMPAT, FwdIdle), map[0 := FRESH])
  const OPENED1: Sys<int> := World(None, [], map[], COMPAT, FRESH, FRESH)
  const CLAIM0: Sys<int> := World(Some(0), [], ONE, COMPAT, File(false, Claiming, COMPAT, COMPAT), FRESH)
  const HAS0: Sys<int> := World(Some(0), [], ONE, COMPAT, File(true, Idle, COMPAT, COMPAT), FRESH)
  const EPP0: Sys<int> := World(Some(0), [], ONE, EPP, File(true, Idle, EPP, COMPAT), FRESH)
  const CLAIM1: Sys<int> :=
    World(Some(0), [1], BOTH, EPP, File(true, Idle, EPP, COMPAT), File(false, Claiming, COMPAT, COMPAT))
  const YIELD0: Sys<int> :=
    World(Some(1), [0], BOTH, EPP, File(true, Yielding, EPP, COMPAT), File(false, Claiming, COMPAT, COMPAT))
  const HAS1: Sys<int> :=
    World(Some(1), [0], BOTH, COMPAT, File(true, Yielding, EPP, COMPAT), File(true, Idle, COMPAT, EPP))
  const YIELD1: Sys<int> :=
    World(Some(0), [1], BOTH, COMPAT, File(true, Yielding, EPP, COMPAT), File(true, Yielding, COMPAT, EPP))
  const BACK0: Sys<int> :=
    World(Some(0), [1], BOTH, COMPAT, File(true, Idle, EPP, COMPAT), File(true, Yielding, COMPAT, EPP))

  ghost predicate Moves(s: Sys<int>, e: Event<int>, t: Sys<int>) {
    Inv(s) && Enabled(s, e) && Step(s, e) == t
  }

  lemma Opens()
    ensures Moves(Start(), Open(0, false), OPENED0) && Moves(OPENED0, Open(1, false), OPENED1)
  {}

  lemma ZeroClaims()
    ensures Moves(OPENED1, Event.Claim(0, false), CLAIM0) && Moves(CLAIM0, Granted(0), HAS0)
  {}

  lemma ZeroSetsMode()
    ensures Moves(HAS0, SetMode(0, EPP), EPP0)
  {}

  lemma OneWaits()
    ensures Moves(EPP0, Event.Claim(1, false), CLAIM1)
  {}

  lemma ZeroYields()
    ensures Moves(CLAIM1, Event.Yield(0, true), YIELD0)
  {}

  lemma OneEnters()
    ensures Moves(YIELD0, Granted(1), HAS1)
  {}

  lemma OneYields()
    ensures Moves(HAS1, Event.Yield(1, true), YIELD1) && Moves(YIELD1, Granted(0), BACK0)
  {}

  // es leads from the start to t, and k is the mode the first file asked for last.
  ghost predicate LeadsTo(es: seq<Event<int>>, t: Sys<int>, k: Option<bv32>) {
    EnabledRun(Start(), es) && Run(Start(), es) == t && LastAsked(None, es, 0) == k
  }

  lemma {:induction false} RunSnoc(s: Sys<int>, es: seq<Event<int>>, e: Event<int>)
    requires Inv(s) && EnabledRun(s, es) && Enabled(Run(s, es), e)
    ensures EnabledRun(s, es + [e]) && Run(s, es + [e]) == Step(Run(s, es), e)
    decreases |es|
  {
    var fs := es + [e];
    if es == [] {
      InvStep(s, e);
      assert fs == [e] && fs[1..] == [];
    } else {
      InvStep(s, es[0]);
      assert fs[0] == es[0] && fs[1..] == es[1..] + [e];
      RunSnoc(Step(s, es[0]), es[1..], e);
    }
  }

  lemma {:induction false} AskedSnoc(k: Option<bv32>, es: seq<Event<int>>, e: Event<int>)
    ensures LastAsked(k, es + [e], 0) == Asked(LastAsked(k, es, 0), e, 0)
    decreases |es|
  {
    var fs := es + [e];
    if es == [] {
      assert fs == [e] && fs[1..] == [];
    } else {
      assert fs[0] == es[0] && fs[1..] == es[1..] + [e];
      AskedSnoc(Asked(k, es[0], 0), es[1..], e);
    }
  }

  lemma Go(es: seq<Event<int>>, s: Sys<int>, k: Option<bv32>, e: Event<int>, t: Sys<int>) returns (fs: seq<Event<int>>)
    requires LeadsTo(es, s, k) && Moves(s, e, t)
    ensures fs == es + [e] && LeadsTo(fs, t, Asked(k, e, 0))
  {
    fs := es + [e];
    RunSnoc(Start(), es, e);
    AskedSnoc(None, es, e);
  }

  // The first file claims, asks for EPP mode, and the second starts to wait.
  lemma UpToWaiting() returns (es: seq<Event<int>>)
    ensures LeadsTo(es, CLAIM1, Some(EPP))
  {
    Opens();
    ZeroClaims();
    ZeroSetsMode();
    OneWaits();
    es := Go([], Start(), None, Open(0, false), OPENED0);
    es := Go(es, OPENED0, Some(COMPAT), Open(1, false), OPENED1);
    es := Go(es, OPENED1, Some(COMPAT), Event.Claim(0, false), CLAIM0);
    es := Go(es, CLAIM0, Some(COMPAT), Granted(0), HAS0);
    es := Go(es, HAS0, Some(COMPAT), SetMode(0, EPP), EPP0);
    es := Go(es, EPP0, Some(EPP), Event.Claim(1, false), CLAIM1);
  }

  // Two files yield to each other: the first asked for EPP mode last, yet owns the
  // port again and PPGETMODE tells it compatibility mode.
  lemma YieldsLeakModes() returns (es: seq<Event<int>>)
    ensures LeadsTo(es, BACK0, Some(EPP)) && ModeOf(ViewOf(BACK0, 0)) == COMPAT
  {
    ZeroYields();
    OneEnters();
    OneYields();
    es := UpToWaiting();
    es := Go(es, CLAIM1, Some(EPP), Event.Yield(0, true), YIELD0);
    es := Go(es, YIELD0, Some(EPP), Granted(1), HAS1);
    es := Go(es, HAS1, Some(EPP), Event.Yield(1, true), YIELD1);
    es := Go(es, YIELD1, Some(EPP), Granted(0), BACK0);
  }
}
