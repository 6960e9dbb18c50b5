// The port arbiter cut into steps (driver/snx_share.c).  A claim tests the owner
// without a lock, then does its work in a locked region that does not test it
// again; a blocking claim sets its waiting word before and clears it after, without
// a lock.  A release lets go, saves, and walks over the queue without a lock.  Other
// threads run between any two steps.  One thread per device, no signals.

module InterleavedArbiter {
  import opened Options
  import opened ControlRegister
  import Arbiter
  import opened WaitLinks

  // Where a device's thread is.
  datatype Phase<D> =
    | Idle
    | Ready               // in claim_or_block: waiting word set, owner not tested yet
    | Tested              // found that it does not own the port, before the locked region
    | Asleep              // was refused, waits for its waiting word to become zero
    | Got                 // has the port, before it clears its waiting word
    | Dropped             // in release: no longer owner, control byte not saved yet
    | Saved               // in release: saved, wait queue not looked at yet
    | Walking(waiter: D)  // in release: has read a pointer to this waiter
    | Passed(waiter: D)   // in release: found that it waits no longer
    | Picked(waiter: D)   // in release: found that it waits, about to claim for it
    | Reaching(waiter: D) // in that claim: found that it does not own the port

  datatype Conc<D(==)> = Conc(
    owner: Option<D>,
    links: Links<D>,
    queue: seq<D>,              // who was linked in and not taken out since, in order
    queued: set<D>,             // bit 0 of the waiting words
    sleeps: set<D>,             // bit 1 of the waiting words
    phase: map<D, Phase<D>>,
    holding: set<D>,            // devices whose thread was told it has the port
    ctr: bv8,
    saved: map<D, bv8>)

  datatype Event<D> =
    | Prepare(d: D)
    | Test(d: D)
    | Claim(d: D)
    | Wake(d: D)
    | Clear(d: D)
    | Drop(d: D)
    | Save(d: D)
    | Look(d: D)
    | Check(d: D)
    | Next(d: D)
    | TestFor(d: D)
    | Hand(d: D)
    | Control(d: D, mask: bv8, val: bv8)

  predicate AtWaiter<D>(p: Phase<D>) {
    p.Walking? || p.Passed? || p.Picked? || p.Reaching?
  }

  predicate Releasing<D>(p: Phase<D>) {
    p.Dropped? || p.Saved? || AtWaiter(p)
  }

  predicate Known<D>(s: Conc<D>) {
    && s.saved.Keys == s.phase.Keys && In(s.owner, s.phase.Keys)
    && KnownLinks(s.links, s.phase.Keys)
    && (forall d <- s.phase :: AtWaiter(s.phase[d]) ==> s.phase[d].waiter in s.phase)
  }

  predicate Enabled<D>(s: Conc<D>, e: Event<D>) {
    e.d in s.phase &&
    match e
    case Prepare(d) => s.phase[d].Idle? && d !in s.holding
    case Test(d) => s.phase[d].Ready?
    case Claim(d) => s.phase[d].Tested?
    case Wake(d) => s.phase[d].Asleep? && d !in s.queued && d !in s.sleeps
    case Clear(d) => s.phase[d].Got?
    case Drop(d) => s.phase[d].Idle? && d in s.holding && s.owner == Some(d)
    case Save(d) => s.phase[d].Dropped?
    case Look(d) => s.phase[d].Saved?
    case Check(d) => s.phase[d].Walking?
    case Next(d) => s.phase[d].Passed?
    case TestFor(d) => s.phase[d].Picked?
    case Hand(d) => s.phase[d].Reaching?
    case Control(d, _, _) => s.phase[d].Idle? && d in s.holding && s.owner == Some(d)
  }

  // ---- The locked region of sunix_parport_claim ----

  function Joined<D>(s: Conc<D>, w: D): Conc<D> {
    s.(links := Append(s.links, w), queue := s.queue + [w], queued := s.queued + {w})
  }

  function Left<D>(s: Conc<D>, w: D): Conc<D>
    requires Known(s) && w in s.phase
  {
    s.(links := Splice(s.links, w), queue := Arbiter.Without(s.queue, w),
       queued := s.queued - {w}, sleeps := s.sleeps - {w})
  }

  function Granted<D>(s: Conc<D>, w: D): Conc<D>
    requires Known(s) && w in s.phase
  {
    (if w in s.queued then Left(s, w) else s).(owner := Some(w), ctr := s.saved[w] & CTR_WRITABLE)
  }

  // The region run for w: whoever owns the port, w itself included, makes w wait.
  function Lock<D>(s: Conc<D>, w: D): Conc<D>
    requires Known(s) && w in s.phase
  {
    if s.owner == None then Granted(s, w)
    else if w in s.sleeps && w !in s.queued then Joined(s, w)
    else s
  }

  // ---- Steps ----

  function Move<D>(s: Conc<D>, d: D, p: Phase<D>): Conc<D> {
    s.(phase := s.phase[d := p])
  }

  function Walk<D>(o: Option<D>): Phase<D> {
    if o.Some? then Walking(o.value) else Idle
  }

  // Where the walk of d's release goes next.
  function Walked<D>(s: Conc<D>, e: Event<D>): (p: Phase<D>)
    requires Known(s) && Enabled(s, e) && (e.Look? || e.Check? || e.Next? || e.TestFor?)
    ensures p.Idle? || (AtWaiter(p) && p.waiter in s.phase)
  {
    if e.Look? then Walk(s.links.head) else
      var w := s.phase[e.d].waiter;
      match e
      case Check(_) => if w in s.sleeps then Picked(w) else Passed(w)
      case Next(_) => Walk(s.links.next[w])
      case TestFor(_) => if s.owner == Some(w) then Idle else Reaching(w)
  }

  function Step<D>(s: Conc<D>, e: Event<D>): Conc<D>
    requires Known(s) && Enabled(s, e)
  {
    match e
    case Prepare(d) => Move(s, d, Ready).(queued := s.queued - {d}, sleeps := s.sleeps + {d})
    case Test(d) => Move(s, d, if s.owner == Some(d) then Got else Tested)
    case Claim(d) => Move(Lock(s, d), d, if s.owner == None then Got else Asleep)
    case Wake(d) => Move(s, d, Got)
    case Clear(d) =>
      Move(s, d, Idle).(queued := s.queued - {d}, sleeps := s.sleeps - {d}, holding := s.holding + {d})
    case Drop(d) => Move(s, d, Dropped).(owner := None, holding := s.holding - {d})
    case Save(d) => Move(s, d, Saved).(saved := s.saved[d := s.ctr])
    case Hand(d) => Move(Lock(s, s.phase[d].waiter), d, Idle)
    case Control(d, mask, val) => s.(ctr := Frob(s.ctr, mask, val))
    case _ => Move(s, e.d, Walked(s, e))
  }

  lemma JoinedKnown<D>(s: Conc<D>, w: D)
    requires Known(s) && w in s.phase
    ensures Known(Joined(s, w))
  {
    AppendKnown(s.links, w, s.phase.Keys);
  }

  lemma GrantedKnown<D>(s: Conc<D>, w: D)
    requires Known(s) && w in s.phase
    ensures Known(Granted(s, w))
  {
    SpliceKnown(s.links, w, s.phase.Keys);
  }

  lemma LockKnown<D>(s: Conc<D>, w: D)
    requires Known(s) && w in s.phase
    ensures Known(Lock(s, w)) && Lock(s, w).phase == s.phase
  {
    if s.owner == None {
      GrantedKnown(s, w);
    } else if w in s.sleeps && w !in s.queued {
      JoinedKnown(s, w);
    }
  }

  lemma MovedKnown<D>(s: Conc<D>, d: D, p: Phase<D>, t: Conc<D>)
    requires Known(s) && d in s.phase && (AtWaiter(p) ==> p.waiter in s.phase)
    requires t.links == s.links && t.phase == s.phase[d := p]
    requires t.saved.Keys == s.saved.Keys && In(t.owner, s.phase.Keys)
    ensures Known(t) && t.phase.Keys == s.phase.Keys
  {
    assert t.phase.Keys == s.phase.Keys;
  }

  lemma OtherKnown<D>(s: Conc<D>, e: Event<D>)
    requires Known(s) && Enabled(s, e) && !e.Claim? && !e.Hand? && !e.Control?
    ensures Known(Step(s, e)) && Step(s, e).phase.Keys == s.phase.Keys
  {
    MovedKnown(s, e.d, Step(s, e).phase[e.d], Step(s, e));
  }

  lemma KnownStep<D>(s: Conc<D>, e: Event<D>)
    requires Known(s) && Enabled(s, e)
    ensures Known(Step(s, e)) && Step(s, e).phase.Keys == s.phase.Keys
  {
    match e
    case Claim(d) =>
      LockKnown(s, d);
      MovedKnown(Lock(s, d), d, if s.owner == None then Got else Asleep, Step(s, e));
    case Hand(d) =>
      LockKnown(s, s.phase[d].waiter);
      MovedKnown(Lock(s, s.phase[d].waiter), d, Idle, Step(s, e));
    case Control(_, _, _) =>
    case _ =>
      OtherKnown(s, e);
  }

  // ---- Runs ----

  predicate EnabledRun<D>(s: Conc<D>, es: seq<Event<D>>)
    requires Known(s)
    decreases |es|
  {
    es == [] || (Enabled(s, es[0]) && (KnownStep(s, es[0]); EnabledRun(Step(s, es[0]), es[1..])))
  }

  function Run<D>(s: Conc<D>, es: seq<Event<D>>): (r: Conc<D>)
    requires Known(s) && EnabledRun(s, es)
    ensures Known(r)
    decreases |es|
  {
    if es == [] then s else
      KnownStep(s, es[0]);
      Run(Step(s, es[0]), es[1..])
  }

  // Devices registered, nobody using the port.
  function Start<D>(saved: map<D, bv8>): (s: Conc<D>)
    ensures Known(s)
  {
    Conc(None, Empty(saved.Keys), [], {}, {}, map d | d in saved :: Phase<D>.Idle, {}, INITIAL_CTR, saved)
  }

  lemma HeadFirst<T>(es: seq<T>, fs: seq<T>)
    requires es != []
    ensures es + fs == [es[0]] + (es[1..] + fs)
  {}

  lemma RunCons<D>(s: Conc<D>, e: Event<D>, es: seq<Event<D>>)
    requires Known(s) && Enabled(s, e) && Known(Step(s, e)) && EnabledRun(Step(s, e), es)
    ensures EnabledRun(s, [e] + es) && Run(s, [e] + es) == Run(Step(s, e), es)
  {
    assert ([e] + es)[1..] == es;
  }

  lemma {:induction false} RunAppend<D>(s: Conc<D>, es: seq<Event<D>>, fs: seq<Event<D>>)
    requires Known(s) && EnabledRun(s, es) && EnabledRun(Run(s, es), fs)
    ensures EnabledRun(s, es + fs) && Run(s, es + fs) == Run(Run(s, es), fs)
    decreases |es|
  {
    if es == [] {
      assert es + fs == fs;
    } else {
      KnownStep(s, es[0]);
      RunAppend(Step(s, es[0]), es[1..], fs);
      RunCons(s, es[0], es[1..] + fs);
      HeadFirst(es, fs);
    }
  }
}
