// What the interleaved arbiter keeps, and exactly which step breaks it: a locked
// region run for the device that already owns the port while its waiting word is
// still set (driver/snx_share.c:803-879).

module InterleavedInvariant {
  import opened Options
  import Arbiter
  import opened WaitLinks
  import opened InterleavedArbiter

  // One device: its phase, whether it owns the port, the two bits of its waiting
  // word, whether it is linked in, and whether its thread was told it has the port.
  predicate Fits<D>(p: Phase<D>, owns: bool, queued: bool, linked: bool, sleeps: bool, holds: bool) {
    && (queued <==> linked)
    && (queued ==> sleeps && !owns)
    && (sleeps ==> p.Ready? || p.Tested? || p.Asleep? || p.Got?)
    && (p.Asleep? && sleeps ==> queued)
    && ((p.Ready? || p.Tested? || p.Asleep?) && !sleeps ==> owns)
    && (p.Got? ==> owns)
    && (holds ==> owns && p.Idle?)
  }

  predicate DevOk<D>(s: Conc<D>, d: D)
    requires d in s.phase
  {
    Fits(s.phase[d], s.owner == Some(d), d in s.queued, d in s.queue, d in s.sleeps, d in s.holding)
  }

  predicate AllFit<D>(s: Conc<D>) {
    forall d <- s.phase :: DevOk(s, d)
  }

  // The links are the queue, and every device fits.
  ghost predicate Sound<D>(s: Conc<D>) {
    Known(s) && Describes(s.links, s.queue) && AllFit(s)
  }

  // A release that has still to look at the queue, or is at a device on it.
  predicate WillHand<D(==)>(p: Phase<D>, q: seq<D>) {
    p.Dropped? || p.Saved? || ((p.Walking? || p.Picked? || p.Reaching?) && p.waiter in q)
  }

  // While somebody waits for a port nobody owns, a release is under way that will
  // come upon a waiter.
  predicate NobodyForgotten<D>(s: Conc<D>) {
    s.owner == None && s.queue != [] ==> exists d <- s.phase :: WillHand(s.phase[d], s.queue)
  }

  ghost predicate Inv<D>(s: Conc<D>) {
    Sound(s) && NobodyForgotten(s)
  }

  // The device whose claim the event does the locked region of.
  function For<D>(s: Conc<D>, e: Event<D>): Option<D>
    requires Enabled(s, e)
  {
    if e.Claim? then Some(e.d) else if e.Hand? then Some(s.phase[e.d].waiter) else None
  }

  // A locked region that puts the owner of the port on the wait queue.
  predicate BlocksOwner<D>(s: Conc<D>, e: Event<D>)
    requires Enabled(s, e)
  {
    var w := For(s, e);
    w.Some? && s.owner == w && w.value in s.sleeps
  }

  // ---- Steps ----

  lemma JoinedSound<D>(s: Conc<D>, w: D)
    requires Sound(s) && w in s.phase && s.owner.Some? && s.owner != Some(w) && w in s.sleeps && w !in s.queued
    ensures Sound(Joined(s, w))
  {
    JoinedKnown(s, w);
    assert DevOk(s, w);
    AppendDescribes(s.links, s.queue, w);
    forall d <- s.phase ensures DevOk(Joined(s, w), d) {
      assert DevOk(s, d);
    }
  }

  lemma GrantedLinks<D>(s: Conc<D>, w: D)
    requires Sound(s) && w in s.phase
    ensures Describes(Granted(s, w).links, Granted(s, w).queue)
    ensures forall d <- s.phase :: d in Granted(s, w).queue <==> d in Granted(s, w).queued
  {
    assert DevOk(s, w);
    if w in s.queued {
      SpliceDescribes(s.links, s.queue, w);
      Arbiter.WithoutRemoves(s.queue, w);
    }
    forall d <- s.phase ensures d in Granted(s, w).queue <==> d in Granted(s, w).queued {
      assert DevOk(s, d);
    }
  }

  lemma GrantedSound<D>(s: Conc<D>, w: D)
    requires Sound(s) && w in s.phase && s.owner == None
    ensures Sound(Granted(s, w))
  {
    GrantedKnown(s, w);
    GrantedLinks(s, w);
    forall d <- s.phase ensures DevOk(Granted(s, w), d) {
      assert DevOk(s, d);
    }
  }

  lemma LockSound<D>(s: Conc<D>, w: D)
    requires Sound(s) && w in s.phase && !(s.owner == Some(w) && w in s.sleeps)
    ensures Sound(Lock(s, w)) && Lock(s, w).phase == s.phase && Lock(s, w).owner.Some?
    ensures s.owner == None ==> Lock(s, w).owner == Some(w)
    ensures s.owner != None && w in Lock(s, w).sleeps ==> w in Lock(s, w).queued
  {
    assert DevOk(s, w);
    if s.owner == None {
      GrantedSound(s, w);
    } else if w in s.sleeps && w !in s.queued {
      JoinedSound(s, w);
    }
  }

  // Only d's own part of the state changes.
  predicate Moved<D>(s: Conc<D>, d: D, t: Conc<D>) {
    && d in s.phase && d in t.phase && t.phase == s.phase[d := t.phase[d]]
    && t.links == s.links && t.queue == s.queue
    && (t.queued == s.queued || t.queued == s.queued - {d})
    && (t.sleeps == s.sleeps || t.sleeps == s.sleeps + {d} || t.sleeps == s.sleeps - {d})
    && (t.holding == s.holding || t.holding == s.holding + {d} || t.holding == s.holding - {d})
    && (t.owner == s.owner || (s.owner == Some(d) && t.owner == None))
  }

  lemma MovedFit<D>(s: Conc<D>, d: D, t: Conc<D>)
    requires AllFit(s) && Moved(s, d, t) && DevOk(t, d)
    ensures AllFit(t)
  {
    forall x <- t.phase ensures DevOk(t, x) {
      assert DevOk(s, x);
    }
  }

  lemma WalkMoves<D>(s: Conc<D>, e: Event<D>)
    requires Known(s) && Enabled(s, e) && Walks(e)
    ensures Moved(s, e.d, Step(s, e)) && Step(s, e).phase[e.d] == Walked(s, e)
  {}

  lemma OtherMoves<D>(s: Conc<D>, e: Event<D>)
    requires Known(s) && Enabled(s, e) && !Walks(e) && !e.Claim? && !e.Hand? && !e.Control?
    ensures Moved(s, e.d, Step(s, e))
  {}

  predicate Walks<D>(e: Event<D>) {
    e.Look? || e.Check? || e.Next? || e.TestFor?
  }

  lemma WalkSound<D>(s: Conc<D>, e: Event<D>)
    requires Sound(s) && Enabled(s, e) && Walks(e)
    ensures Sound(Step(s, e))
  {
    KnownStep(s, e);
    assert DevOk(s, e.d);
    WalkMoves(s, e);
    MovedFit(s, e.d, Step(s, e));
  }

  lemma OwnSound<D>(s: Conc<D>, e: Event<D>)
    requires Sound(s) && Enabled(s, e) && !Walks(e) && !e.Claim? && !e.Hand? && !e.Control?
    ensures Sound(Step(s, e))
  {
    KnownStep(s, e);
    assert DevOk(s, e.d);
    OtherMoves(s, e);
    MovedFit(s, e.d, Step(s, e));
  }

  // After the locked region left t.
  lemma RefusedSound<D>(t: Conc<D>, d: D)
    requires Sound(t) && d in t.phase && t.phase[d].Tested? && (d in t.sleeps ==> d in t.queued)
    ensures Sound(Move(t, d, Asleep))
  {
    assert DevOk(t, d);
    MovedKnown(t, d, Asleep, Move(t, d, Asleep));
    MovedFit(t, d, Move(t, d, Asleep));
  }

  lemma GotSound<D>(t: Conc<D>, d: D)
    requires Sound(t) && d in t.phase && t.phase[d].Tested? && t.owner == Some(d)
    ensures Sound(Move(t, d, Got))
  {
    assert DevOk(t, d);
    MovedKnown(t, d, Got, Move(t, d, Got));
    MovedFit(t, d, Move(t, d, Got));
  }

  lemma DoneSound<D>(t: Conc<D>, d: D)
    requires Sound(t) && d in t.phase && t.phase[d].Reaching?
    ensures Sound(Move(t, d, Idle))
  {
    assert DevOk(t, d);
    MovedKnown(t, d, Idle, Move(t, d, Idle));
    MovedFit(t, d, Move(t, d, Idle));
  }

  lemma LockedSound<D>(s: Conc<D>, e: Event<D>)
    requires Sound(s) && Enabled(s, e) && (e.Claim? || e.Hand?) && !BlocksOwner(s, e)
    ensures Sound(Step(s, e)) && Step(s, e).owner != None
  {
    var w := For(s, e).value;
    LockSound(s, w);
    match e
    case Hand(d) => DoneSound(Lock(s, w), d);
    case Claim(d) =>
      if s.owner == None {
        GotSound(Lock(s, d), d);
      } else {
        RefusedSound(Lock(s, d), d);
      }
  }

  // A walk that has reached a waiter, or is about to, goes on to hand over.
  lemma WalkGoesOn<D>(s: Conc<D>, e: Event<D>)
    requires Sound(s) && Enabled(s, e) && Walks(e) && s.owner == None && s.queue != []
    requires WillHand(s.phase[e.d], s.queue)
    ensures WillHand(Walked(s, e), s.queue)
  {
    assert s.links.head == At(s.queue, 0);
    assert forall d <- s.queue :: d in s.phase && DevOk(s, d);
  }

  lemma OtherForgetsNobody<D>(s: Conc<D>, e: Event<D>)
    requires Inv(s) && Enabled(s, e) && !e.Claim? && !e.Hand? && !e.Drop? && s.owner == None && s.queue != []
    ensures exists r <- Step(s, e).phase :: WillHand(Step(s, e).phase[r], s.queue)
  {
    var r :| r in s.phase && WillHand(s.phase[r], s.queue);
    var t := Step(s, e);
    assert r in t.phase;
    if r != e.d {
      assert t.phase[r] == s.phase[r];
    } else if Walks(e) {
      WalkGoesOn(s, e);
      assert WillHand(t.phase[r], s.queue);
    } else {
      assert t.phase[r] == Saved;
    }
  }

  lemma OtherInv<D>(s: Conc<D>, e: Event<D>)
    requires Inv(s) && Enabled(s, e) && !e.Claim? && !e.Hand? && !e.Drop? && !e.Control?
    ensures Inv(Step(s, e))
  {
    if Walks(e) {
      WalkSound(s, e);
    } else {
      OwnSound(s, e);
    }
    assert Step(s, e).owner == s.owner && Step(s, e).queue == s.queue;
    if s.owner == None && s.queue != [] {
      OtherForgetsNobody(s, e);
    }
  }

  lemma BlockingBreaks<D>(s: Conc<D>, e: Event<D>)
    requires Inv(s) && Enabled(s, e) && BlocksOwner(s, e)
    ensures !Sound(Step(s, e))
  {
    var w := For(s, e).value;
    assert DevOk(s, w);
    KnownStep(s, e);
    assert !DevOk(Step(s, e), w);
  }

  lemma InvStep<D>(s: Conc<D>, e: Event<D>)
    requires Inv(s) && Enabled(s, e) && !BlocksOwner(s, e)
    ensures Inv(Step(s, e))
  {
    match e
    case Claim(_) => LockedSound(s, e);
    case Hand(_) => LockedSound(s, e);
    case Drop(d) =>
      OwnSound(s, e);
      assert WillHand(Step(s, e).phase[d], Step(s, e).queue);
    case Control(_, _, _) =>
    case _ => OtherInv(s, e);
  }

  // A step keeps the invariant exactly when it does not put the owner on the queue.
  lemma InvStepIff<D>(s: Conc<D>, e: Event<D>)
    requires Inv(s) && Enabled(s, e)
    ensures Inv(Step(s, e)) <==> !BlocksOwner(s, e)
  {
    if BlocksOwner(s, e) {
      BlockingBreaks(s, e);
    } else {
      InvStep(s, e);
    }
  }

  // ---- Runs ----

  predicate Clean<D>(s: Conc<D>, es: seq<Event<D>>)
    requires Known(s) && EnabledRun(s, es)
    decreases |es|
  {
    es == [] || (!BlocksOwner(s, es[0]) && (KnownStep(s, es[0]); Clean(Step(s, es[0]), es[1..])))
  }

  ghost predicate AlwaysInv<D>(s: Conc<D>, es: seq<Event<D>>)
    requires Known(s) && EnabledRun(s, es)
    decreases |es|
  {
    Inv(s) && (es == [] || (KnownStep(s, es[0]); AlwaysInv(Step(s, es[0]), es[1..])))
  }

  // Over a run the invariant holds throughout exactly when no locked region is run
  // for an owner that still waits.
  lemma {:induction false} InvRunIff<D>(s: Conc<D>, es: seq<Event<D>>)
    requires Inv(s) && EnabledRun(s, es)
    ensures AlwaysInv(s, es) <==> Clean(s, es)
    ensures Clean(s, es) ==> Inv(Run(s, es))
    decreases |es|
  {
    if es == [] {
    } else {
      KnownStep(s, es[0]);
      InvStepIff(s, es[0]);
      if !BlocksOwner(s, es[0]) {
        InvRunIff(Step(s, es[0]), es[1..]);
      }
    }
  }

  lemma CleanCons<D>(s: Conc<D>, e: Event<D>, es: seq<Event<D>>)
    requires Known(s) && Enabled(s, e) && !BlocksOwner(s, e)
    requires Known(Step(s, e)) && EnabledRun(Step(s, e), es) && Clean(Step(s, e), es)
    ensures EnabledRun(s, [e] + es) && Clean(s, [e] + es)
  {
    assert ([e] + es)[1..] == es;
  }

  lemma {:induction false} CleanAppend<D>(s: Conc<D>, es: seq<Event<D>>, fs: seq<Event<D>>)
    requires Known(s) && EnabledRun(s, es) && Clean(s, es) && EnabledRun(Run(s, es), fs) && Clean(Run(s, es), fs)
    ensures EnabledRun(s, es + fs) && Clean(s, es + fs)
    decreases |es|
  {
    if es == [] {
      assert es + fs == fs;
    } else {
      KnownStep(s, es[0]);
      CleanAppend(Step(s, es[0]), es[1..], fs);
      CleanCons(s, es[0], es[1..] + fs);
      HeadFirst(es, fs);
    }
  }

  lemma StartInv<D>(saved: map<D, bv8>)
    ensures Inv(Start(saved))
  {}

  // No lost wake-up.  After any clean run, if nobody owns the port and no release is
  // under way then nobody is queued and no thread is asleep.
  lemma NoLostWakeup<D>(saved: map<D, bv8>, es: seq<Event<D>>)
    requires EnabledRun(Start(saved), es) && Clean(Start(saved), es)
    ensures var t := Run(Start(saved), es);
            t.owner == None && (forall d <- t.phase :: !Releasing(t.phase[d])) ==>
              t.queue == [] && t.links.head == None && forall d <- t.phase :: !t.phase[d].Asleep?
  {
    StartInv(saved);
    InvRunIff(Start(saved), es);
    var t := Run(Start(saved), es);
    if t.owner == None && (forall d <- t.phase :: !Releasing(t.phase[d])) {
      assert t.queue == [];
      forall d <- t.phase ensures !t.phase[d].Asleep? {
        assert DevOk(t, d);
      }
    }
  }

  // A hand-off that finds the port taken again leaves the waiter its place.
  lemma FailedHandOffKeepsPlace<D>(s: Conc<D>, d: D)
    requires Inv(s) && Enabled(s, Hand(d)) && s.phase[d].waiter in s.queue && s.owner.Some?
    ensures Step(s, Hand(d)) == Move(s, d, Idle)
  {
    assert DevOk(s, s.phase[d].waiter);
  }
}
