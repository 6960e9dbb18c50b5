// What the arbiter promises over whole runs: waiters are served in turn,
// yielding is round robin, and every device finds its own control byte again.

module ArbiterTheorems {
  import opened Options
  import opened ControlRegister
  import opened Arbiter

  // ---- Waiters are served in turn ----

  // The event gives the port to the head of the queue.
  predicate HandsOff<D>(s: Arb<D>, e: Event<D>) {
    && s.queue != [] && s.owner == Some(e.d)
    && (e.Release? || e.Unregister? || (e.Yield? && e.expired))
  }

  // Places that waiter d gains: one for a hand-off, one when a device ahead of it
  // is unregistered while waiting.
  function Moves<D>(s: Arb<D>, e: Event<D>, d: D): nat
    requires d in s.queue
  {
    if HandsOff(s, e) then 1
    else if e.Unregister? && e.d in s.queue && IndexOf(s.queue, e.d) < IndexOf(s.queue, d) then 1
    else 0
  }

  // Places gained over a run, counted while d waits.
  function Advance<D>(s: Arb<D>, es: seq<Event<D>>, d: D): nat
    requires Inv(s) && EnabledRun(s, es)
    decreases |es|
  {
    if es == [] || d !in s.queue then 0 else
      InvStep(s, es[0]);
      Moves(s, es[0], d) + Advance(Step(s, es[0]), es[1..], d)
  }

  lemma IndexIsUnique<D>(q: seq<D>, i: nat)
    requires NoDup(q) && i < |q|
    ensures IndexOf(q, q[i]) == i
  {}

  // The devices that come to wait.
  function EnqueuedBy<D>(s: Arb<D>, e: Event<D>): seq<D> {
    if e.ClaimOrBlock? && s.owner.Some? && s.owner != Some(e.d) then [e.d]
    else if e.Yield? && e.expired && s.queue != [] then [e.d]
    else []
  }

  // The shape of the queue after an event.
  lemma QueueAfter<D>(s: Arb<D>, e: Event<D>)
    requires Inv(s) && Enabled(s, e)
    ensures HandsOff(s, e) ==> Step(s, e).queue == s.queue[1..] + EnqueuedBy(s, e)
    ensures HandsOff(s, e) ==> Step(s, e).owner == Some(s.queue[0])
    ensures !HandsOff(s, e) && !(e.Unregister? && e.d in s.queue) ==>
              Step(s, e).queue == s.queue + EnqueuedBy(s, e)
    ensures !HandsOff(s, e) && e.Unregister? && e.d in s.queue ==> Step(s, e).queue == Without(s.queue, e.d)
  {}

  // Where the element at place k goes when `gone` elements leave from the front
  // and some join at the back, or when the element at place j leaves.
  lemma PlaceAfter<D>(q: seq<D>, q': seq<D>, tail: seq<D>, gone: nat, k: nat)
    requires NoDup(q') && gone <= k < |q| && q' == q[gone..] + tail
    ensures q[k] in q' && IndexOf(q', q[k]) == k - gone
  {
    assert q'[k - gone] == q[k];
    IndexIsUnique(q', k - gone);
  }

  lemma PlaceRemoved<D>(q: seq<D>, d: D, gone: nat, q': seq<D>, k: nat)
    requires Removed(q, d, gone, q') && k < |q| && k != gone
    ensures q[k] in q' && IndexOf(q', q[k]) == if gone < k then k - 1 else k
  {
    var k' := if gone < k then k - 1 else k;
    assert q'[k'] == q[k];
    IndexIsUnique(q', k');
  }

  lemma PlaceWithout<D>(q: seq<D>, d: D, k: nat)
    requires NoDup(q) && d in q && k < |q| && q[k] != d
    ensures q[k] in Without(q, d)
    ensures IndexOf(Without(q, d), q[k]) == if IndexOf(q, d) < k then k - 1 else k
  {
    WithoutRemoves(q, d);
    PlaceRemoved(q, d, IndexOf(q, d), Without(q, d), k);
  }

  lemma WaiterStep<D>(s: Arb<D>, e: Event<D>, d: D)
    requires Inv(s) && Enabled(s, e) && d in s.queue && e != Event.Unregister(d)
    ensures Inv(Step(s, e))
    ensures var k := IndexOf(s.queue, d); var s' := Step(s, e);
            if k == 0 && HandsOff(s, e) then s'.owner == Some(d)
            else Moves(s, e, d) <= k && d in s'.queue && IndexOf(s'.queue, d) == k - Moves(s, e, d)
  {
    InvStep(s, e);
    QueueAfter(s, e);
    var k, q' := IndexOf(s.queue, d), Step(s, e).queue;
    if HandsOff(s, e) {
      if k > 0 {
        PlaceAfter(s.queue, q', EnqueuedBy(s, e), 1, k);
      }
    } else if e.Unregister? && e.d in s.queue {
      PlaceWithout(s.queue, e.d, k);
    } else {
      assert s.queue[0..] == s.queue;
      PlaceAfter(s.queue, q', EnqueuedBy(s, e), 0, k);
    }
  }

  // A waiter with k devices ahead of it keeps its place except that it moves up
  // by one for each hand-off (or departure ahead of it); it does not own the port
  // before the k + 1st.
  lemma {:induction false} WaiterMovesUp<D>(s: Arb<D>, es: seq<Event<D>>, d: D)
    requires Inv(s) && EnabledRun(s, es) && d in s.queue
    requires Event.Unregister(d) !in es
    requires Advance(s, es, d) <= IndexOf(s.queue, d)
    ensures var r := Run(s, es);
            && d in r.queue && r.owner != Some(d)
            && IndexOf(r.queue, d) == IndexOf(s.queue, d) - Advance(s, es, d)
    decreases |es|
  {
    if es != [] {
      WaiterStep(s, es[0], d);
      if IndexOf(s.queue, d) == 0 && HandsOff(s, es[0]) {
        assert false;
      } else {
        WaiterMovesUp(Step(s, es[0]), es[1..], d);
      }
    }
  }

  // ... and it owns the port at exactly the k + 1st.
  lemma WaiterIsServed<D>(s: Arb<D>, es: seq<Event<D>>, e: Event<D>, d: D)
    requires Inv(s) && EnabledRun(s, es) && Enabled(Run(s, es), e) && d in s.queue
    requires Event.Unregister(d) !in es
    requires Advance(s, es, d) == IndexOf(s.queue, d) && HandsOff(Run(s, es), e)
    ensures Step(Run(s, es), e).owner == Some(d)
  {
    WaiterMovesUp(s, es, d);
    WaiterStep(Run(s, es), e, d);
  }

  // ---- Grants follow enqueue order ----

  function GrantedBy<D>(s: Arb<D>, e: Event<D>): seq<D> {
    if HandsOff(s, e) then [s.queue[0]] else []
  }

  predicate NoWaiterLeaves<D>(s: Arb<D>, es: seq<Event<D>>)
    requires Inv(s) && EnabledRun(s, es)
    decreases |es|
  {
    es == [] || ((es[0].Unregister? ==> es[0].d !in s.queue) &&
                 (InvStep(s, es[0]); NoWaiterLeaves(Step(s, es[0]), es[1..])))
  }

  function Granted<D>(s: Arb<D>, es: seq<Event<D>>): seq<D>
    requires Inv(s) && EnabledRun(s, es)
    decreases |es|
  {
    if es == [] then [] else
      InvStep(s, es[0]);
      GrantedBy(s, es[0]) + Granted(Step(s, es[0]), es[1..])
  }

  function Enqueued<D>(s: Arb<D>, es: seq<Event<D>>): seq<D>
    requires Inv(s) && EnabledRun(s, es)
    decreases |es|
  {
    if es == [] then [] else
      InvStep(s, es[0]);
      EnqueuedBy(s, es[0]) + Enqueued(Step(s, es[0]), es[1..])
  }

  lemma QueueStep<D>(s: Arb<D>, e: Event<D>)
    requires Inv(s) && Enabled(s, e) && (e.Unregister? ==> e.d !in s.queue)
    ensures s.queue + EnqueuedBy(s, e) == GrantedBy(s, e) + Step(s, e).queue
  {
    QueueAfter(s, e);
    if HandsOff(s, e) {
      assert s.queue == [s.queue[0]] + s.queue[1..];
    }
  }

  lemma Regroup<D>(q: seq<D>, e: seq<D>, es: seq<D>, g: seq<D>, q': seq<D>, gs: seq<D>, r: seq<D>)
    requires q + e == g + q' && q' + es == gs + r
    ensures q + (e + es) == (g + gs) + r
  {
    assert q + (e + es) == (q + e) + es;
    assert (g + q') + es == g + (q' + es);
    assert g + (gs + r) == (g + gs) + r;
  }

  // Nobody is dropped, duplicated or overtaken: over any run in which no device
  // is unregistered while it waits, the devices already waiting followed by those
  // that came to wait are those the port was handed to, in that order, followed
  // by those still waiting.
  lemma {:induction false} GrantsFollowArrival<D>(s: Arb<D>, es: seq<Event<D>>)
    requires Inv(s) && EnabledRun(s, es) && NoWaiterLeaves(s, es)
    ensures s.queue + Enqueued(s, es) == Granted(s, es) + Run(s, es).queue
    decreases |es|
  {
    if es != [] {
      var e, s' := es[0], Step(s, es[0]);
      InvStep(s, e);
      QueueStep(s, e);
      GrantsFollowArrival(s', es[1..]);
      Regroup(s.queue, EnqueuedBy(s, e), Enqueued(s', es[1..]),
              GrantedBy(s, e), s'.queue, Granted(s', es[1..]), Run(s', es[1..]).queue);
    }
  }

  // ---- Yielding is round robin ----

  // The owner followed by the waiters.
  function Ring<D>(s: Arb<D>): seq<D> {
    (if s.owner.Some? then [s.owner.value] else []) + s.queue
  }

  function Rotate<D>(r: seq<D>, n: nat): seq<D>
    requires n <= |r|
  {
    r[n..] + r[..n]
  }

  // The control byte device d works with: the live one when it owns the port.
  function Context<D>(s: Arb<D>, d: D): bv8
    requires d in s.saved
  {
    if s.owner == Some(d) then s.ctr else s.saved[d] & CTR_WRITABLE
  }

  // n yields in a row, each by the device that owns the port at that moment.
  function YieldInTurn<D>(s: Arb<D>, n: nat): (r: Arb<D>)
    requires Inv(s) && s.owner.Some?
    ensures Inv(r) && r.owner.Some?
    decreases n
  {
    if n == 0 then s else
      var e := Event.Yield(s.owner.value, true);
      InvStep(s, e);
      YieldInTurn(Step(s, e), n - 1)
  }

  lemma YieldedShape<D>(s: Arb<D>, d: D)
    requires Inv(s) && s.owner == Some(d) && s.queue != []
    ensures Yielded(s, d, true) ==
            Arb(Some(s.queue[0]), s.queue[1..] + [d], s.saved[s.queue[0]] & CTR_WRITABLE, s.saved[d := s.ctr])
  {}

  lemma YieldKeepsContext<D>(s: Arb<D>, o: D, d: D)
    requires Inv(s) && s.owner == Some(o) && s.queue != [] && d in s.saved
    ensures d in Yielded(s, o, true).saved && Context(Yielded(s, o, true), d) == Context(s, d)
  {}

  lemma YieldRotates<D>(s: Arb<D>)
    requires Inv(s) && s.owner.Some?
    ensures var s' := Step(s, Event.Yield(s.owner.value, true));
            && Ring(s') == Rotate(Ring(s), 1)
            && s'.saved.Keys == s.saved.Keys
            && forall d <- s.saved :: Context(s', d) == Context(s, d)
  {
    if s.queue != [] {
      YieldedShape(s, s.owner.value);
      forall d <- s.saved {
        YieldKeepsContext(s, s.owner.value, d);
      }
    }
  }

  lemma RotateOneMore<D>(r: seq<D>, n: nat)
    requires 0 < n <= |r|
    ensures Rotate(Rotate(r, 1), n - 1) == Rotate(r, n)
  {}

  // n yields rotate owner and queue by n places and disturb nobody's context.
  lemma {:induction false} RoundRobin<D>(s: Arb<D>, n: nat)
    requires Inv(s) && s.owner.Some? && n <= |Ring(s)|
    ensures var s' := YieldInTurn(s, n);
            && Ring(s') == Rotate(Ring(s), n)
            && s'.saved.Keys == s.saved.Keys
            && (forall d <- s.saved :: Context(s', d) == Context(s, d))
    decreases n
  {
    if n > 0 {
      var e := Event.Yield(s.owner.value, true);
      InvStep(s, e);
      YieldRotates(s);
      RoundRobin(Step(s, e), n - 1);
      RotateOneMore(Ring(s), n);
    }
  }

  // A full round is invisible: owner, queue and register are back where they were.
  lemma FullRound<D>(s: Arb<D>)
    requires Inv(s) && s.owner.Some?
    ensures var s' := YieldInTurn(s, |Ring(s)|);
            s'.owner == s.owner && s'.queue == s.queue && s'.ctr == s.ctr
  {
    RoundRobin(s, |Ring(s)|);
    var s' := YieldInTurn(s, |Ring(s)|);
    assert Ring(s') == Ring(s);
    assert s'.owner.value == Ring(s')[0] && s'.queue == Ring(s')[1..];
    assert Context(s', s.owner.value) == s'.ctr;
  }

  // ---- Every device finds its own control byte again ----

  // d neither owns the port nor is unregistered anywhere in the run.
  predicate StaysAway<D>(s: Arb<D>, es: seq<Event<D>>, d: D)
    requires Inv(s) && EnabledRun(s, es)
    decreases |es|
  {
    && s.owner != Some(d) && d in s.saved
    && (es == [] || (InvStep(s, es[0]); StaysAway(Step(s, es[0]), es[1..], d)))
  }

  // The event makes d the owner.
  predicate Regains<D>(s: Arb<D>, e: Event<D>, d: D)
    requires Inv(s) && Enabled(s, e)
  {
    s.owner != Some(d) && Step(s, e).owner == Some(d)
  }

  lemma {:induction false} SavedIsStable<D>(s: Arb<D>, es: seq<Event<D>>, d: D)
    requires Inv(s) && EnabledRun(s, es) && StaysAway(s, es, d)
    ensures d in Run(s, es).saved && Run(s, es).saved[d] == s.saved[d]
    ensures Run(s, es).owner != Some(d)
    decreases |es|
  {
    if es != [] {
      InvStep(s, es[0]);
      assert Step(s, es[0]).saved[d] == s.saved[d];
      SavedIsStable(Step(s, es[0]), es[1..], d);
    }
  }

  lemma YieldLoadsSaved<D>(s: Arb<D>, e: Event<D>, d: D)
    requires Inv(s) && Enabled(s, e) && Regains(s, e, d) && d in s.saved && e.Yield?
    ensures Step(s, e).ctr == s.saved[d] & CTR_WRITABLE
  {}

  lemma ReleaseLoadsSaved<D>(s: Arb<D>, e: Event<D>, d: D)
    requires Inv(s) && Enabled(s, e) && Regains(s, e, d) && d in s.saved
    requires e.Release? || e.Unregister?
    ensures Step(s, e).ctr == s.saved[d] & CTR_WRITABLE
  {}

  lemma ClaimLoadsSaved<D>(s: Arb<D>, e: Event<D>, d: D)
    requires Inv(s) && Enabled(s, e) && Regains(s, e, d) && d in s.saved
    requires !e.Yield? && !e.Release? && !e.Unregister?
    ensures Step(s, e).ctr == s.saved[d] & CTR_WRITABLE
  {}

  lemma RegainLoadsSaved<D>(s: Arb<D>, e: Event<D>, d: D)
    requires Inv(s) && Enabled(s, e) && Regains(s, e, d) && d in s.saved
    ensures Step(s, e).ctr == s.saved[d] & CTR_WRITABLE
  {
    if e.Yield? {
      YieldLoadsSaved(s, e, d);
    } else if e.Release? || e.Unregister? {
      ReleaseLoadsSaved(s, e, d);
    } else {
      ClaimLoadsSaved(s, e, d);
    }
  }

  lemma LeavingSaves<D>(s: Arb<D>, e: Event<D>, d: D)
    requires Inv(s) && s.owner == Some(d) && Enabled(s, e)
    requires e == Event.Release(d) || e == Event.Yield(d, true)
    ensures var s' := Step(s, e); s'.owner != Some(d) ==> d in s'.saved && s'.saved[d] == s.ctr
  {}

  // However the others use the port meanwhile, a device that gave it up (by
  // releasing or yielding) and is granted it again finds the control register as
  // it left it.
  lemma ContextIsRestored<D>(s: Arb<D>, leave: Event<D>, es: seq<Event<D>>, back: Event<D>, d: D)
    requires Inv(s) && Enabled(s, leave) && s.owner == Some(d)
    requires leave == Event.Release(d) || leave == Event.Yield(d, true)
    requires Inv(Step(s, leave)) && EnabledRun(Step(s, leave), es) && StaysAway(Step(s, leave), es, d)
    requires var r := Run(Step(s, leave), es); Enabled(r, back) && Regains(r, back, d)
    ensures Step(Run(Step(s, leave), es), back).ctr == s.ctr
  {
    LeavingSaves(s, leave, d);
    SavedIsStable(Step(s, leave), es, d);
    RegainLoadsSaved(Run(Step(s, leave), es), back, d);
  }

  // The first time, it finds the initial byte.
  lemma FirstContextIsInitial<D>(s: Arb<D>, d: D, irq: bool, es: seq<Event<D>>, first: Event<D>)
    requires Inv(s) && Enabled(s, Event.Register(d, irq))
    requires var t := Step(s, Event.Register(d, irq)); Inv(t) && EnabledRun(t, es) && StaysAway(t, es, d)
    requires var r := Run(Step(s, Event.Register(d, irq)), es); Enabled(r, first) && Regains(r, first, d)
    ensures Step(Run(Step(s, Event.Register(d, irq)), es), first).ctr == 0x0C
  {
    var t := Step(s, Event.Register(d, irq));
    SavedIsStable(t, es, d);
    RegainLoadsSaved(Run(t, es), first, d);
  }

  // ---- Ownership ----

  // The port leaves its owner only through that device's own release, effective
  // yield or unregistration.
  lemma OnlyTheOwnerGivesUp<D>(s: Arb<D>, e: Event<D>, d: D)
    requires Inv(s) && Enabled(s, e) && s.owner == Some(d) && Step(s, e).owner != Some(d)
    ensures e.d == d && (e.Release? || e.Unregister? || (e.Yield? && e.expired && s.queue != []))
  {}

  // ---- Interrupted waits ----

  // claim_or_block by a device that is perhaps still queued from an interrupted wait:
  // it overwrites the bit that says so, so a blocked device always joins the queue.
  function BlockedAgain<D>(s: Arb<D>, d: D): Arb<D>
    requires d in s.saved
  {
    if s.owner.Some? && s.owner != Some(d) then s.(queue := s.queue + [d]) else Claimed(s, d, true)
  }

  // It keeps the arbiter sound, and is what claim_or_block should be, exactly when
  // the device is not queued.
  lemma BlockingTwiceBreaksQueue<D>(s: Arb<D>, d: D)
    requires Inv(s) && d in s.saved
    ensures Inv(BlockedAgain(s, d)) <==> d !in s.queue
    ensures BlockedAgain(s, d) == Claimed(s, d, true) <==> d !in s.queue
  {
    var q := s.queue + [d];
    if d in s.queue {
      assert s.owner.Some? && s.owner != Some(d);
      assert q[IndexOf(s.queue, d)] == q[|s.queue|];
    }
  }
}
