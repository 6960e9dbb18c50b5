// What the cuts in a claim and in a release cost (driver/snx_share.c): when a port is
// left with an owner that does not know it or sleeps for ever, when a waiter is lost,
// when waiters are served out of turn, and when a release saves another device's
// control byte.

module InterleavedTheorems {
  import opened Options
  import opened ControlRegister
  import Arbiter
  import opened WaitLinks
  import opened InterleavedArbiter
  import opened InterleavedInvariant

  // ---- Mutual exclusion ----

  predicate HolderOk<D>(s: Conc<D>, d: D)
    requires d in s.phase
  {
    && (d in s.holding ==> s.owner == Some(d) && s.phase[d].Idle?)
    && (s.phase[d].Got? ==> s.owner == Some(d))
    && ((s.phase[d].Ready? || s.phase[d].Tested? || s.phase[d].Asleep?) && d !in s.sleeps ==> s.owner == Some(d))
  }

  predicate HoldersOk<D>(s: Conc<D>) {
    forall d <- s.phase :: HolderOk(s, d)
  }

  lemma LockHolder<D>(s: Conc<D>, w: D, d: D)
    requires Known(s) && w in s.phase && d in s.phase && HolderOk(s, d)
    ensures Lock(s, w).phase == s.phase && HolderOk(Lock(s, w), d)
  {}

  lemma MoveHolder<D>(t: Conc<D>, x: D, p: Phase<D>, d: D)
    requires d in t.phase && HolderOk(t, d) && x in t.phase
    requires d == x ==> d !in t.holding
    requires d == x && (p.Ready? || p.Tested? || p.Asleep?) ==> d in t.sleeps || t.owner == Some(d)
    requires d == x && p.Got? ==> t.owner == Some(d)
    ensures HolderOk(Move(t, x, p), d)
  {}

  lemma OtherHolder<D>(s: Conc<D>, e: Event<D>, d: D)
    requires Known(s) && Enabled(s, e) && HolderOk(s, e.d) && d in s.phase && HolderOk(s, d)
    requires !e.Claim? && !e.Hand? && !Walks(e)
    ensures d in Step(s, e).phase && HolderOk(Step(s, e), d)
  {}

  lemma HolderStep<D>(s: Conc<D>, e: Event<D>, d: D)
    requires Known(s) && Enabled(s, e) && HolderOk(s, e.d) && d in s.phase && HolderOk(s, d)
    ensures d in Step(s, e).phase && HolderOk(Step(s, e), d)
  {
    if Walks(e) {
      MoveHolder(s, e.d, Walked(s, e), d);
    } else {
      match e
      case Claim(x) =>
        LockHolder(s, x, d);
        MoveHolder(Lock(s, x), x, if s.owner == None then Got else Asleep, d);
      case Hand(x) =>
        LockHolder(s, s.phase[x].waiter, d);
        MoveHolder(Lock(s, s.phase[x].waiter), x, Idle, d);
      case _ =>
        OtherHolder(s, e, d);
    }
  }

  lemma {:induction false} HoldersRun<D>(s: Conc<D>, es: seq<Event<D>>)
    requires Known(s) && HoldersOk(s) && EnabledRun(s, es)
    ensures HoldersOk(Run(s, es))
    decreases |es|
  {
    if es == [] {
    } else {
      KnownStep(s, es[0]);
      forall d <- s.phase ensures HolderOk(Step(s, es[0]), d) {
        HolderStep(s, es[0], d);
      }
      HoldersRun(Step(s, es[0]), es[1..]);
    }
  }

  // Over every run, clean or not, at most one thread at a time was told that the port
  // is its own.
  lemma OneHolder<D>(saved: map<D, bv8>, es: seq<Event<D>>, d1: D, d2: D)
    requires EnabledRun(Start(saved), es)
    requires var t := Run(Start(saved), es); d1 in t.phase && d2 in t.phase && d1 in t.holding && d2 in t.holding
    ensures d1 == d2
  {
    HoldersRun(Start(saved), es);
    assert HolderOk(Run(Start(saved), es), d1) && HolderOk(Run(Start(saved), es), d2);
  }

  // ---- Who owns the port ----

  // d's thread holds the port or will learn that it has it.
  predicate Wanted<D>(s: Conc<D>, d: D)
    requires d in s.phase
  {
    s.owner == Some(d) &&
    match s.phase[d]
    case Idle => d in s.holding
    case Ready => true
    case Tested => d !in s.sleeps && d !in s.queued
    case Asleep => d !in s.sleeps && d !in s.queued
    case Got => true
    case _ => false
  }

  // d owns the port, holds nothing and asks for nothing.
  predicate Stranded<D>(s: Conc<D>, d: D)
    requires d in s.phase
  {
    s.owner == Some(d) && d !in s.holding && (s.phase[d].Idle? || Releasing(s.phase[d]))
  }

  // d owns the port, and its thread sleeps until somebody hands d the port, or is
  // about to.
  predicate Doomed<D>(s: Conc<D>, d: D)
    requires d in s.phase
  {
    s.owner == Some(d) && d in s.sleeps && (s.phase[d].Tested? || s.phase[d].Asleep?)
  }

  lemma OneOfThree<D>(s: Conc<D>, d: D)
    requires Inv(s) && s.owner == Some(d)
    ensures Wanted(s, d) || Stranded(s, d) || Doomed(s, d)
    ensures !(Wanted(s, d) && Stranded(s, d)) && !(Wanted(s, d) && Doomed(s, d)) && !(Stranded(s, d) && Doomed(s, d))
  {
    assert DevOk(s, d);
  }

  // What the others' steps leave of an owner.
  predicate Keeps<D>(s: Conc<D>, t: Conc<D>, d: D)
    requires d in s.phase
  {
    && t.owner == s.owner && d in t.phase && t.phase[d] == s.phase[d]
    && (d in t.holding <==> d in s.holding) && (d in t.sleeps <==> d in s.sleeps)
    && (d in t.queued ==> d in s.queued || d in s.sleeps)
  }

  lemma LockKeeps<D>(s: Conc<D>, w: D, d: D)
    requires Known(s) && w in s.phase && d in s.phase && s.owner == Some(d)
    ensures Keeps(s, Lock(s, w), d)
  {}

  lemma MoveKeeps<D>(t: Conc<D>, x: D, p: Phase<D>, d: D)
    requires d in t.phase && x != d
    ensures Keeps(t, Move(t, x, p), d)
  {}

  lemma OthersKeep<D>(s: Conc<D>, e: Event<D>, d: D)
    requires Known(s) && Enabled(s, e) && d in s.phase && s.owner == Some(d) && e.d != d
    ensures Keeps(s, Step(s, e), d)
  {
    match e
    case Claim(x) =>
      LockKeeps(s, x, d);
      MoveKeeps(Lock(s, x), x, if s.owner == None then Got else Asleep, d);
    case Hand(x) =>
      LockKeeps(s, s.phase[x].waiter, d);
      MoveKeeps(Lock(s, s.phase[x].waiter), x, Idle, d);
    case _ =>
  }

  lemma OwnClaim<D>(s: Conc<D>, d: D)
    requires Known(s) && Enabled(s, Claim(d)) && s.owner == Some(d)
    ensures var t := Step(s, Claim(d)); d in t.phase && t.owner == Some(d) && t.phase[d].Asleep?
    ensures var t := Step(s, Claim(d)); t.sleeps == s.sleeps && (d !in s.sleeps ==> t.queued == s.queued)
  {}

  lemma WantedStep<D>(s: Conc<D>, e: Event<D>, d: D)
    requires Known(s) && Enabled(s, e) && d in s.phase && Wanted(s, d) && e != Drop(d)
    ensures d in Step(s, e).phase && Wanted(Step(s, e), d)
  {
    if e.d != d {
      OthersKeep(s, e, d);
    } else if e.Claim? {
      OwnClaim(s, d);
    }
  }

  // What d's own thread does next until it holds the port.
  function OwnSteps<D>(s: Conc<D>, d: D): seq<Event<D>>
    requires d in s.phase
  {
    match s.phase[d]
    case Ready => [Test(d), Clear(d)]
    case Tested => [Claim(d), Wake(d), Clear(d)]
    case Asleep => [Wake(d), Clear(d)]
    case Got => [Clear(d)]
    case _ => []
  }

  lemma {:induction false} OwnStepsHold<D>(s: Conc<D>, d: D)
    requires Known(s) && d in s.phase && Wanted(s, d)
    ensures EnabledRun(s, OwnSteps(s, d))
    ensures Enabled(Run(s, OwnSteps(s, d)), Drop(d))
    decreases |OwnSteps(s, d)|
  {
    var es := OwnSteps(s, d);
    if es == [] {
    } else {
      KnownStep(s, es[0]);
      WantedStep(s, es[0], d);
      assert es[1..] == OwnSteps(Step(s, es[0]), d);
      OwnStepsHold(Step(s, es[0]), d);
    }
  }

  // An owner that wants the port keeps it over every run of the others, and needs
  // only its own steps to hold it and be able to let go.
  lemma {:induction false} WantedStays<D>(s: Conc<D>, es: seq<Event<D>>, d: D)
    requires Known(s) && EnabledRun(s, es) && d in s.phase && Wanted(s, d) && Drop(d) !in es
    ensures var t := Run(s, es);
            && d in t.phase && Wanted(t, d)
            && EnabledRun(t, OwnSteps(t, d)) && Enabled(Run(t, OwnSteps(t, d)), Drop(d))
    decreases |es|
  {
    if es == [] {
      OwnStepsHold(s, d);
    } else {
      assert es[0] in es;
      KnownStep(s, es[0]);
      WantedStep(s, es[0], d);
      WantedStays(Step(s, es[0]), es[1..], d);
    }
  }

  lemma StrandedStep<D>(s: Conc<D>, e: Event<D>, d: D)
    requires Known(s) && Enabled(s, e) && d in s.phase && Stranded(s, d) && e != Prepare(d)
    ensures d in Step(s, e).phase && Stranded(Step(s, e), d)
  {
    if e.d != d {
      OthersKeep(s, e, d);
    }
  }

  lemma DoomedStep<D>(s: Conc<D>, e: Event<D>, d: D)
    requires Known(s) && Enabled(s, e) && d in s.phase && Doomed(s, d)
    ensures d in Step(s, e).phase && Doomed(Step(s, e), d)
  {
    if e.d != d {
      OthersKeep(s, e, d);
    } else {
      OwnClaim(s, d);
    }
  }

  // Whoever comes to the locked region of its own claim is put to sleep.
  predicate AllRefused<D>(s: Conc<D>)
    requires Known(s)
  {
    forall w <- s.phase :: Enabled(s, Claim(w)) ==> Step(s, Claim(w)).phase[w].Asleep?
  }

  // Nothing the others do frees a stranded port: until its owner happens to ask for
  // it again it keeps it, over every run, and whoever else claims goes to sleep.
  lemma {:induction false} StrandedStays<D>(s: Conc<D>, es: seq<Event<D>>, d: D)
    requires Known(s) && EnabledRun(s, es) && d in s.phase && Stranded(s, d) && Prepare(d) !in es
    ensures d in Run(s, es).phase && Stranded(Run(s, es), d) && AllRefused(Run(s, es))
    decreases |es|
  {
    if es == [] {
    } else {
      assert es[0] in es;
      KnownStep(s, es[0]);
      StrandedStep(s, es[0], d);
      StrandedStays(Step(s, es[0]), es[1..], d);
    }
  }

  // Its own next claim finds that it owns the port, and it can let go.
  lemma StrandedRecovers<D>(s: Conc<D>, d: D)
    requires Known(s) && d in s.phase && Stranded(s, d) && s.phase[d].Idle?
    ensures Enabled(s, Prepare(d)) && Known(Step(s, Prepare(d)))
    ensures var t := Step(s, Prepare(d)); d in t.phase && Wanted(t, d)
  {
    KnownStep(s, Prepare(d));
  }

  // A doomed port is gone for good: whatever anybody does, its owner stays the owner
  // and asleep, and whoever else claims goes to sleep.
  lemma {:induction false} DoomedStays<D>(s: Conc<D>, es: seq<Event<D>>, d: D)
    requires Known(s) && EnabledRun(s, es) && d in s.phase && Doomed(s, d)
    ensures d in Run(s, es).phase && Doomed(Run(s, es), d) && AllRefused(Run(s, es))
    decreases |es|
  {
    if es == [] {
    } else {
      KnownStep(s, es[0]);
      DoomedStep(s, es[0], d);
      DoomedStays(Step(s, es[0]), es[1..], d);
    }
  }

  lemma GrantedWanted<D>(s: Conc<D>, w: D)
    requires Known(s) && w in s.phase && DevOk(s, w) && s.owner == None
    ensures var t := Granted(s, w);
            w in t.phase && (Wanted(t, w) <==> w in s.queue || s.phase[w].Ready?)
            && (Doomed(t, w) <==> w !in s.queue && s.phase[w].Tested?)
            && (Stranded(t, w) <==> w !in s.queue && (s.phase[w].Idle? || Releasing(s.phase[w])))
  {}

  lemma FinishedRelease<D>(t: Conc<D>, d: D, w: D)
    requires d in t.phase && Releasing(t.phase[d]) && w in t.phase && d !in t.holding
    ensures var u := Move(t, d, Idle);
            && (Wanted(u, w) <==> Wanted(t, w)) && (Doomed(u, w) <==> Doomed(t, w))
            && (Stranded(u, w) <==> Stranded(t, w))
  {}

  // A hand-off is of use exactly to a waiter that is still queued, or that has just
  // begun to claim.  One past its own owner test and not queued is put to sleep for
  // good; any other is left with a port it does not know of.
  lemma HandOffWantedIff<D>(s: Conc<D>, d: D)
    requires Inv(s) && Enabled(s, Hand(d)) && s.owner == None
    ensures var t, w := Step(s, Hand(d)), s.phase[d].waiter;
            w in t.phase && t.owner == Some(w)
            && (Wanted(t, w) <==> w in s.queue || s.phase[w].Ready?)
            && (Doomed(t, w) <==> w !in s.queue && s.phase[w].Tested?)
            && (Stranded(t, w) <==> w !in s.queue && (s.phase[w].Idle? || Releasing(s.phase[w])))
  {
    var w := s.phase[d].waiter;
    assert DevOk(s, d) && DevOk(s, w);
    GrantedWanted(s, w);
    assert Granted(s, w).holding == s.holding;
    FinishedRelease(Granted(s, w), d, w);
  }

  predicate OwnerWanted<D>(s: Conc<D>)
    requires Known(s)
  {
    s.owner.Some? ==> Wanted(s, s.owner.value)
  }

  // A hand-off to a waiter that is not queued and not at the start of a claim.
  predicate Stray<D>(s: Conc<D>, e: Event<D>)
    requires Enabled(s, e)
  {
    e.Hand? && s.owner == None &&
    var w := s.phase[e.d].waiter;
    w !in s.queue && !(w in s.phase && s.phase[w].Ready?)
  }

  lemma OwnClaimWanted<D>(s: Conc<D>, d: D)
    requires Known(s) && Enabled(s, Claim(d)) && s.owner == None
    ensures d in Step(s, Claim(d)).phase && Wanted(Step(s, Claim(d)), d)
  {}

  lemma OwnerComesFrom<D>(s: Conc<D>, e: Event<D>)
    requires Known(s) && Enabled(s, e) && s.owner == None && !e.Claim? && !e.Hand?
    ensures Step(s, e).owner == None
  {}

  // A port whose owner wants it becomes one whose owner does not exactly by a stray
  // hand-off.
  lemma OwnerWantedStep<D>(s: Conc<D>, e: Event<D>)
    requires Inv(s) && Enabled(s, e) && OwnerWanted(s)
    ensures Known(Step(s, e)) && (OwnerWanted(Step(s, e)) <==> !Stray(s, e))
  {
    KnownStep(s, e);
    if s.owner.Some? {
      if e != Drop(s.owner.value) {
        WantedStep(s, e, s.owner.value);
      }
    } else {
      match e
      case Claim(d) => OwnClaimWanted(s, d);
      case Hand(d) => HandOffWantedIff(s, d);
      case _ => OwnerComesFrom(s, e);
    }
  }

  // ---- A lost waiter ----

  // d sleeps in the queue and no pointer leads to it.
  predicate Unreachable<D>(s: Conc<D>, d: D) {
    && d in s.phase && s.phase[d].Asleep? && d in s.queued && d in s.sleeps
    && s.links.head != Some(d)
    && (forall x <- s.links.next :: s.links.next[x] != Some(d))
    && (forall x <- s.phase :: !(AtWaiter(s.phase[x]) && s.phase[x].waiter == d))
  }

  lemma LockUnreachable<D>(s: Conc<D>, w: D, d: D)
    requires Known(s) && w in s.phase && w != d && Unreachable(s, d)
    ensures Unreachable(Lock(s, w), d)
  {}

  lemma MovedUnreachable<D>(s: Conc<D>, x: D, t: Conc<D>, d: D)
    requires Moved(s, x, t) && x != d && Unreachable(s, d) && !(AtWaiter(t.phase[x]) && t.phase[x].waiter == d)
    ensures Unreachable(t, d)
  {}

  lemma WalkUnreachable<D>(s: Conc<D>, e: Event<D>, d: D)
    requires Known(s) && Enabled(s, e) && Walks(e) && Unreachable(s, d)
    ensures !(AtWaiter(Walked(s, e)) && Walked(s, e).waiter == d)
  {}

  lemma MoveUnreachable<D>(t: Conc<D>, x: D, p: Phase<D>, d: D)
    requires x in t.phase && x != d && Unreachable(t, d) && !(AtWaiter(p) && p.waiter == d)
    ensures Unreachable(Move(t, x, p), d)
  {
    MovedUnreachable(t, x, Move(t, x, p), d);
  }

  lemma OtherUnreachable<D>(s: Conc<D>, e: Event<D>, d: D)
    requires Known(s) && Enabled(s, e) && !e.Claim? && !e.Hand? && !e.Control? && Unreachable(s, d)
    ensures Unreachable(Step(s, e), d)
  {
    if Walks(e) {
      WalkMoves(s, e);
      WalkUnreachable(s, e, d);
    } else {
      OtherMoves(s, e);
    }
    MovedUnreachable(s, e.d, Step(s, e), d);
  }

  lemma UnreachableStep<D>(s: Conc<D>, e: Event<D>, d: D)
    requires Known(s) && Enabled(s, e) && Unreachable(s, d)
    ensures Unreachable(Step(s, e), d)
  {
    match e
    case Claim(w) =>
      LockUnreachable(s, w, d);
      MoveUnreachable(Lock(s, w), w, if s.owner == None then Got else Asleep, d);
    case Hand(r) =>
      LockUnreachable(s, s.phase[r].waiter, d);
      MoveUnreachable(Lock(s, s.phase[r].waiter), r, Idle, d);
    case Control(_, _, _) =>
    case _ =>
      OtherUnreachable(s, e, d);
  }

  // A thread that no pointer leads to sleeps for good, over every run.
  lemma {:induction false} LostForGood<D>(s: Conc<D>, es: seq<Event<D>>, d: D)
    requires Known(s) && EnabledRun(s, es) && Unreachable(s, d)
    ensures Unreachable(Run(s, es), d)
    decreases |es|
  {
    if es == [] {
    } else {
      KnownStep(s, es[0]);
      UnreachableStep(s, es[0], d);
      LostForGood(Step(s, es[0]), es[1..], d);
    }
  }

  // ---- Arrival order ----

  // The waiter that the event gives the port to, and the device it puts in the
  // queue.
  function ServedBy<D>(s: Conc<D>, e: Event<D>): seq<D>
    requires Enabled(s, e)
  {
    var w := For(s, e);
    if w.Some? && s.owner == None && w.value in s.queued then [w.value] else []
  }

  function ArrivedBy<D>(s: Conc<D>, e: Event<D>): seq<D>
    requires Enabled(s, e)
  {
    var w := For(s, e);
    if w.Some? && s.owner != None && w.value in s.sleeps && w.value !in s.queued then [w.value] else []
  }

  // A waiter is served only from the head of the queue.
  predicate InTurn<D>(s: Conc<D>, e: Event<D>)
    requires Known(s) && Enabled(s, e)
  {
    ServedBy(s, e) != [] ==> s.links.head == Some(ServedBy(s, e)[0])
  }

  predicate AllInTurn<D>(s: Conc<D>, es: seq<Event<D>>)
    requires Known(s) && EnabledRun(s, es)
    decreases |es|
  {
    es == [] || (InTurn(s, es[0]) && (KnownStep(s, es[0]); AllInTurn(Step(s, es[0]), es[1..])))
  }

  function Served<D>(s: Conc<D>, es: seq<Event<D>>): seq<D>
    requires Known(s) && EnabledRun(s, es)
    decreases |es|
  {
    if es == [] then [] else
      KnownStep(s, es[0]);
      ServedBy(s, es[0]) + Served(Step(s, es[0]), es[1..])
  }

  function Arrived<D>(s: Conc<D>, es: seq<Event<D>>): seq<D>
    requires Known(s) && EnabledRun(s, es)
    decreases |es|
  {
    if es == [] then [] else
      KnownStep(s, es[0]);
      ArrivedBy(s, es[0]) + Arrived(Step(s, es[0]), es[1..])
  }

  lemma HeadOfQueue<D>(s: Conc<D>, w: D)
    requires Inv(s) && w in s.phase && w in s.queued
    ensures s.queue != [] && (s.links.head == Some(w) <==> w == s.queue[0])
  {
    assert DevOk(s, w);
    assert s.links.head == At(s.queue, 0);
  }

  lemma LockQueue<D>(s: Conc<D>, w: D)
    requires Known(s) && w in s.phase
    ensures Lock(s, w).queue ==
              if s.owner == None then (if w in s.queued then Arbiter.Without(s.queue, w) else s.queue)
              else if w in s.sleeps && w !in s.queued then s.queue + [w] else s.queue
  {}

  lemma QueueStep<D>(s: Conc<D>, e: Event<D>)
    requires Known(s) && Enabled(s, e)
    ensures Step(s, e).queue == if For(s, e).Some? then Lock(s, For(s, e).value).queue else s.queue
  {}

  // g, a and q' are what a step serves, puts in the queue and leaves there.
  predicate Turns<D(==)>(q: seq<D>, g: seq<D>, a: seq<D>, q': seq<D>) {
    q' == if g == [] then q + a else Arbiter.Without(q, g[0])
  }

  lemma StepTurns<D>(s: Conc<D>, e: Event<D>)
    requires Known(s) && Enabled(s, e)
    ensures Turns(s.queue, ServedBy(s, e), ArrivedBy(s, e), Step(s, e).queue)
    ensures |ServedBy(s, e)| <= 1 && (ServedBy(s, e) == [] || ArrivedBy(s, e) == [])
  {
    QueueStep(s, e);
    if For(s, e).Some? {
      LockQueue(s, For(s, e).value);
    }
  }

  lemma TurnsFromHead<D>(q: seq<D>, g: seq<D>, a: seq<D>, q': seq<D>)
    requires Turns(q, g, a, q') && |g| <= 1 && (g == [] || (a == [] && q != [] && g[0] == q[0]))
    ensures q + a == g + q'
  {
    if g != [] {
      Arbiter.WithoutHead(q);
    }
  }

  lemma InTurnStep<D>(s: Conc<D>, e: Event<D>)
    requires Inv(s) && Enabled(s, e) && InTurn(s, e)
    ensures s.queue + ArrivedBy(s, e) == ServedBy(s, e) + Step(s, e).queue
  {
    StepTurns(s, e);
    if ServedBy(s, e) != [] {
      HeadOfQueue(s, For(s, e).value);
    }
    TurnsFromHead(s.queue, ServedBy(s, e), ArrivedBy(s, e), Step(s, e).queue);
  }

  // With q + a == g + q', the equation for the rest of a run is the one for all of it.
  lemma Cancel<D>(q: seq<D>, a: seq<D>, a': seq<D>, g: seq<D>, q': seq<D>, g': seq<D>, r: seq<D>)
    requires q + a == g + q'
    ensures q + (a + a') == (g + g') + r <==> q' + a' == g' + r
  {
    assert q + (a + a') == g + (q' + a') by {
      assert q + (a + a') == (q + a) + a';
      assert g + (q' + a') == (g + q') + a';
    }
    assert (g + g') + r == g + (g' + r);
    assert (g + (q' + a'))[|g|..] == q' + a' && (g + (g' + r))[|g|..] == g' + r;
  }

  // Over a clean run, waiters are served in the order of their arrival exactly when
  // every one is at the head of the queue at the moment it is given the port.
  lemma {:induction false} ServedInOrderIff<D>(s: Conc<D>, es: seq<Event<D>>)
    requires Inv(s) && EnabledRun(s, es) && Clean(s, es)
    ensures s.queue + Arrived(s, es) == Served(s, es) + Run(s, es).queue <==> AllInTurn(s, es)
    decreases |es|
  {
    if es == [] {
    } else {
      KnownStep(s, es[0]);
      InvStepIff(s, es[0]);
      var s' := Step(s, es[0]);
      if InTurn(s, es[0]) {
        InTurnStep(s, es[0]);
        ServedInOrderIff(s', es[1..]);
        Cancel(s.queue, ArrivedBy(s, es[0]), Arrived(s', es[1..]),
               ServedBy(s, es[0]), s'.queue, Served(s', es[1..]), Run(s', es[1..]).queue);
      } else {
        HeadOfQueue(s, For(s, es[0]).value);
        assert (s.queue + Arrived(s, es))[0] == s.queue[0];
        assert (Served(s, es) + Run(s, es).queue)[0] == ServedBy(s, es[0])[0];
      }
    }
  }

  // ---- A release's own gap: the owner is dropped before its byte is saved ----

  // The control byte in the last state of a run in which somebody owns the port:
  // what the last owner left.
  function LastHeld<D>(s: Conc<D>, es: seq<Event<D>>): Option<bv8>
    requires Known(s) && EnabledRun(s, es)
    decreases |es|
  {
    var here := if s.owner.Some? then Some(s.ctr) else None;
    if es == [] then here else
      KnownStep(s, es[0]);
      var later := LastHeld(Step(s, es[0]), es[1..]);
      if later.Some? then later else here
  }

  // The byte the event loads into the register, and the last one loaded in a run.
  function LoadedBy<D>(s: Conc<D>, e: Event<D>): Option<bv8>
    requires Known(s) && Enabled(s, e)
  {
    var w := For(s, e);
    if w.Some? && s.owner == None then Some(s.saved[w.value] & CTR_WRITABLE) else None
  }

  function LastLoaded<D>(s: Conc<D>, es: seq<Event<D>>): Option<bv8>
    requires Known(s) && EnabledRun(s, es)
    decreases |es|
  {
    if es == [] then None else
      KnownStep(s, es[0]);
      var later := LastLoaded(Step(s, es[0]), es[1..]);
      if later.Some? then later else LoadedBy(s, es[0])
  }

  function Or(b: Option<bv8>, other: bv8): bv8 {
    if b.Some? then b.value else other
  }

  lemma LockLoads<D>(s: Conc<D>, w: D)
    requires Known(s) && w in s.phase
    ensures Lock(s, w).ctr == (if s.owner == None then s.saved[w] & CTR_WRITABLE else s.ctr) && Lock(s, w).owner != None
  {}

  lemma LockedLoads<D>(s: Conc<D>, e: Event<D>)
    requires Known(s) && Enabled(s, e) && (e.Claim? || e.Hand?)
    ensures Step(s, e).ctr == Or(LoadedBy(s, e), s.ctr) && Step(s, e).owner != None
  {
    LockLoads(s, For(s, e).value);
  }

  lemma OtherLoads<D>(s: Conc<D>, e: Event<D>)
    requires Known(s) && Enabled(s, e) && !e.Claim? && !e.Hand? && !e.Control?
    ensures Step(s, e).ctr == s.ctr
  {}

  lemma LoadedStep<D>(s: Conc<D>, e: Event<D>)
    requires Known(s) && Enabled(s, e) && !e.Control?
    ensures Step(s, e).ctr == Or(LoadedBy(s, e), s.ctr)
  {
    if e.Claim? || e.Hand? {
      LockedLoads(s, e);
    } else {
      OtherLoads(s, e);
    }
  }

  lemma IdleKeepsRegister<D>(s: Conc<D>, e: Event<D>)
    requires Known(s) && Enabled(s, e) && Step(s, e).owner == None
    ensures Step(s, e).ctr == s.ctr
  {
    if e.Claim? || e.Hand? {
      LockedLoads(s, e);
    } else if !e.Control? {
      OtherLoads(s, e);
    }
  }

  lemma {:induction false} HeldRegister<D>(s: Conc<D>, es: seq<Event<D>>)
    requires Known(s) && EnabledRun(s, es)
    ensures Run(s, es).ctr == Or(LastHeld(s, es), s.ctr)
    decreases |es|
  {
    if es == [] {
    } else {
      KnownStep(s, es[0]);
      if Step(s, es[0]).owner == None {
        IdleKeepsRegister(s, es[0]);
      }
      HeldRegister(Step(s, es[0]), es[1..]);
    }
  }

  lemma {:induction false} LoadedRegister<D>(s: Conc<D>, es: seq<Event<D>>)
    requires Known(s) && EnabledRun(s, es) && forall e <- es :: !e.Control?
    ensures Run(s, es).ctr == Or(LastLoaded(s, es), s.ctr)
    decreases |es|
  {
    if es == [] {
    } else {
      assert es[0] in es;
      KnownStep(s, es[0]);
      LoadedStep(s, es[0]);
      LoadedRegister(Step(s, es[0]), es[1..]);
    }
  }

  // d's release has dropped the port and saves the control byte after es.
  predicate Window<D>(s: Conc<D>, d: D, es: seq<Event<D>>) {
    && Known(s) && Enabled(s, Drop(d)) && Known(Step(s, Drop(d)))
    && EnabledRun(Step(s, Drop(d)), es) && Enabled(Run(Step(s, Drop(d)), es), Save(d))
  }

  // The byte saved for d is what the last device to own the port in between left,
  // d's own if there was none; so it is d's own exactly when nobody owned the port
  // in between or the last to do so left the same byte.
  lemma SavesOwnContext<D>(s: Conc<D>, d: D, es: seq<Event<D>>)
    requires Window(s, d, es)
    ensures var held := LastHeld(Step(s, Drop(d)), es);
            var saved := Step(Run(Step(s, Drop(d)), es), Save(d)).saved[d];
            saved == Or(held, s.ctr) && (saved == s.ctr <==> held == None || held == Some(s.ctr))
  {
    HeldRegister(Step(s, Drop(d)), es);
  }

  // When nobody writes the register in between, that is decided by the claims
  // alone: none, or the last one loads the same byte.
  lemma SavesOwnContextIff<D>(s: Conc<D>, d: D, es: seq<Event<D>>)
    requires Window(s, d, es) && forall e <- es :: !e.Control?
    ensures var loaded := LastLoaded(Step(s, Drop(d)), es);
            Step(Run(Step(s, Drop(d)), es), Save(d)).saved[d] == s.ctr <==> loaded == None || loaded == Some(s.ctr)
  {
    LoadedRegister(Step(s, Drop(d)), es);
  }
}
