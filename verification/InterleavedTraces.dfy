// Runs of the interleaved arbiter in which a property that holds of whole claims and
// releases is lost (driver/snx_share.c:796-988).

module InterleavedTraces {
  import opened Options
  import opened ControlRegister
  import Arbiter
  import opened WaitLinks
  import opened InterleavedArbiter
  import opened InterleavedInvariant
  import opened InterleavedRuns
  import opened InterleavedTheorems

  type Dev = nat

  const BYTES: map<Dev, bv8> := map[0 := 0x0C, 1 := 0x0C, 2 := 0x0C, 3 := 0x0C]

  const UNLINKED: Links<Dev> :=
    Links(None, None,
          map[0 := None, 1 := None, 2 := None, 3 := None],
          map[0 := None, 1 := None, 2 := None, 3 := None])
  const LINKED_2: Links<Dev> :=
    Links(Some(2), Some(2),
          map[0 := None, 1 := None, 2 := None, 3 := None],
          map[0 := None, 1 := None, 2 := None, 3 := None])
  const LINKED_23: Links<Dev> :=
    Links(Some(2), Some(3),
          map[0 := None, 1 := None, 2 := Some(3), 3 := None],
          map[0 := None, 1 := None, 2 := None, 3 := Some(2)])
  const BROKEN_232: Links<Dev> :=
    Links(Some(2), Some(2),
          map[0 := None, 1 := None, 2 := None, 3 := Some(2)],
          map[0 := None, 1 := None, 2 := Some(3), 3 := Some(2)])
  const BROKEN_32: Links<Dev> :=
    Links(Some(2), Some(3),
          map[0 := None, 1 := None, 2 := None, 3 := None],
          map[0 := None, 1 := None, 2 := None, 3 := Some(2)])
  const LINKED_3: Links<Dev> :=
    Links(Some(3), Some(3),
          map[0 := None, 1 := None, 2 := None, 3 := None],
          map[0 := None, 1 := None, 2 := None, 3 := None])
  const LINKED_32: Links<Dev> :=
    Links(Some(3), Some(2),
          map[0 := None, 1 := None, 2 := None, 3 := Some(2)],
          map[0 := None, 1 := None, 2 := Some(3), 3 := None])

  lemma Put2First() ensures Append(UNLINKED, 2) == LINKED_2 {}
  lemma Taken22() ensures Splice(LINKED_2, 2) == UNLINKED {}
  lemma Put32() ensures Append(LINKED_2, 3) == LINKED_23 {}
  lemma Put223() ensures Append(LINKED_23, 2) == BROKEN_232 {}
  lemma Taken2Broken232() ensures Splice(BROKEN_232, 2) == BROKEN_32 {}
  lemma Taken223() ensures Splice(LINKED_23, 2) == LINKED_3 {}
  lemma Put23() ensures Append(LINKED_3, 2) == LINKED_32 {}
  lemma Taken232() ensures Splice(LINKED_32, 2) == LINKED_3 {}

  lemma Out2Of2() ensures Arbiter.Without<Dev>([2], 2) == [] {}
  lemma Out2Of232() ensures Arbiter.Without<Dev>([2, 3, 2], 2) == [3, 2] {}
  lemma Out2Of23() ensures Arbiter.Without<Dev>([2, 3], 2) == [3] {}
  lemma Out2Of32() ensures Arbiter.Without<Dev>([3, 2], 2) == [3] {}

  // Four devices, every control byte still the initial one.
  function Four(owner: Option<Dev>, links: Links<Dev>, queue: seq<Dev>, queued: set<Dev>, sleeps: set<Dev>,
                p0: Phase<Dev>, p1: Phase<Dev>, p2: Phase<Dev>, p3: Phase<Dev>, holding: set<Dev>): Conc<Dev>
  {
    Conc(owner, links, queue, queued, sleeps, map[0 := p0, 1 := p1, 2 := p2, 3 := p3], holding, 0x0C, BYTES)
  }

  // Reached from the start; if clean, without blocking the owner on the way.
  ghost predicate Reached(s: Conc<Dev>, clean: bool) {
    Known(s) && exists es: seq<Event<Dev>> ::
      EnabledRun(Start(BYTES), es) && Run(Start(BYTES), es) == s && (clean ==> Clean(Start(BYTES), es))
  }

  lemma Go(s: Conc<Dev>, fs: seq<Event<Dev>>, t: Conc<Dev>, clean: bool)
    requires Reached(s, clean) && Goes(s, fs, t)
    ensures Reached(t, clean)
  {
    var es: seq<Event<Dev>> :|
      EnabledRun(Start(BYTES), es) && Run(Start(BYTES), es) == s && (clean ==> Clean(Start(BYTES), es));
    RunAppend(Start(BYTES), es, fs);
    if clean {
      CleanAppend(Start(BYTES), es, fs);
    }
    assert EnabledRun(Start(BYTES), es + fs) && Run(Start(BYTES), es + fs) == t;
  }

  lemma GoOnce(s: Conc<Dev>, e: Event<Dev>, t: Conc<Dev>, clean: bool)
    requires Reached(s, clean) && Enabled(s, e) && !BlocksOwner(s, e) && Step(s, e) == t
    ensures Reached(t, clean)
  {
    Once(s, e, t);
    Go(s, [e], t, clean);
  }

  lemma GoTakes(s: Conc<Dev>, d: Dev, t: Conc<Dev>, clean: bool)
    requires Reached(s, clean) && Outside(s, d) && s.owner == None && d in s.saved && Taken(s, d) == t
    ensures Reached(t, clean)
  {
    Takes(s, d);
    Go(s, Taking(d), t, clean);
  }

  lemma GoBlocks(s: Conc<Dev>, d: Dev, t: Conc<Dev>, clean: bool)
    requires Reached(s, clean) && Outside(s, d) && s.owner != None && s.owner != Some(d) && Blocked(s, d) == t
    ensures Reached(t, clean)
  {
    Blocks(s, d);
    Go(s, Blocking(d), t, clean);
  }

  lemma GoWakes(s: Conc<Dev>, d: Dev, t: Conc<Dev>, clean: bool)
    requires Reached(s, clean) && Enabled(s, Wake(d)) && Woken(s, d) == t
    ensures Reached(t, clean)
  {
    Wakes(s, d);
    Go(s, Waking(d), t, clean);
  }

  lemma GoLooks(s: Conc<Dev>, d: Dev, t: Conc<Dev>, clean: bool)
    requires Reached(s, clean) && Enabled(s, Drop(d)) && LetGo(s, d, Walk(s.links.head)) == t
    ensures Reached(t, clean)
  {
    Looks(s, d);
    Go(s, Looking(d), t, clean);
  }

  lemma GoPicks(s: Conc<Dev>, d: Dev, w: Dev, t: Conc<Dev>, clean: bool)
    requires Reached(s, clean) && Enabled(s, Drop(d)) && s.links.head == Some(w) && w in s.sleeps
    requires LetGo(s, d, Picked(w)) == t
    ensures Reached(t, clean)
  {
    Picks(s, d, w);
    Go(s, Picking(d), t, clean);
  }

  lemma GoHands(s: Conc<Dev>, d: Dev, w: Dev, t: Conc<Dev>, clean: bool)
    requires Reached(s, clean) && d in s.phase && s.phase[d] == Picked(w) && s.owner == None && w in s.queued
    requires w in s.phase && HandedTo(s, d, w) == t
    ensures Reached(t, clean)
  {
    Hands(s, d, w);
    Go(s, Handing(d), t, clean);
  }

  lemma HandedIs(s: Conc<Dev>, d: Dev, w: Dev, t: Conc<Dev>)
    requires w in s.links.next && w in s.links.prev && w in s.saved
    requires t.owner == Some(w) && t.links == Splice(s.links, w) && t.queue == Arbiter.Without(s.queue, w)
    requires t.queued == s.queued - {w} && t.sleeps == s.sleeps - {w} && t.phase == s.phase[d := Idle]
    requires t.holding == s.holding && t.ctr == s.saved[w] & CTR_WRITABLE && t.saved == s.saved
    ensures HandedTo(s, d, w) == t
  {}

  lemma GoTestsFor(s: Conc<Dev>, d: Dev, w: Dev, t: Conc<Dev>, clean: bool)
    requires Reached(s, clean) && d in s.phase && s.phase[d] == Picked(w) && s.owner != Some(w)
    requires Move(s, d, Reaching(w)) == t
    ensures Reached(t, clean)
  {
    Once(s, TestFor(d), t);
    Go(s, [TestFor(d)], t, clean);
  }

  lemma GoServes(s: Conc<Dev>, d: Dev, w: Dev, t: Conc<Dev>, clean: bool)
    requires Reached(s, clean) && d in s.phase && s.phase[d] == Reaching(w) && s.owner == None && w in s.queued
    requires w in s.phase && HandedTo(s, d, w) == t
    ensures Reached(t, clean)
  {
    Serves(s, d, w);
    Go(s, [Hand(d)], t, clean);
  }

  lemma GoStray(s: Conc<Dev>, d: Dev, w: Dev, t: Conc<Dev>, clean: bool)
    requires Reached(s, clean) && d in s.phase && s.phase[d] == Reaching(w) && s.owner == None && w !in s.queued
    requires w in s.phase && Strayed(s, d, w) == t
    ensures Reached(t, clean)
  {
    Strays(s, d, w);
    Go(s, [Hand(d)], t, clean);
  }

  lemma GoPasses(s: Conc<Dev>, d: Dev, w: Dev, t: Conc<Dev>, clean: bool)
    requires Reached(s, clean) && Enabled(s, Drop(d)) && s.links.head == Some(w) && w !in s.sleeps
    requires w in s.links.next && s.links.next[w] == None && LetGo(s, d, Idle) == t
    ensures Reached(t, clean)
  {
    PassesOver(s, d, w);
    Go(s, Passing(d), t, clean);
  }

  // A step that may block the owner.
  lemma Break(s: Conc<Dev>, e: Event<Dev>, t: Conc<Dev>, clean: bool)
    requires Reached(s, clean) && Enabled(s, e) && Step(s, e) == t
    ensures Reached(t, false)
  {
    var es: seq<Event<Dev>> :| EnabledRun(Start(BYTES), es) && Run(Start(BYTES), es) == s;
    OneStep(s, e);
    RunAppend(Start(BYTES), es, [e]);
    assert EnabledRun(Start(BYTES), es + [e]) && Run(Start(BYTES), es + [e]) == t;
  }

  lemma BreakHands(s: Conc<Dev>, d: Dev, w: Dev, t: Conc<Dev>, clean: bool)
    requires Reached(s, clean) && d in s.phase && s.phase[d] == Reaching(w) && s.owner == Some(w)
    requires w in s.sleeps && w !in s.queued && Move(Joined(s, w), d, Idle) == t
    ensures BlocksOwner(s, Hand(d)) && Step(s, Hand(d)) == t && Reached(t, false)
  {
    Break(s, Hand(d), t, clean);
  }

  // ---- A stale hand-off ----

  // 0 takes the port and 2 queues up behind it; 0's release gets as far as choosing
  // 2 (S3).  1 finds the port free and takes it (S4).
  const S0: Conc<Dev> := Four(None, UNLINKED, [], {}, {}, Idle, Idle, Idle, Idle, {})
  const S1: Conc<Dev> := Four(Some(0), UNLINKED, [], {}, {}, Idle, Idle, Idle, Idle, {0})
  const S2: Conc<Dev> := Four(Some(0), LINKED_2, [2], {2}, {2}, Idle, Idle, Asleep, Idle, {0})
  const S3: Conc<Dev> := Four(None, LINKED_2, [2], {2}, {2}, Picked(2), Idle, Asleep, Idle, {})
  const S4: Conc<Dev> := Four(Some(1), LINKED_2, [2], {2}, {2}, Picked(2), Idle, Asleep, Idle, {1})

  lemma ToS0()
    ensures Reached(S0, true)
  {
    assert S0 == Start(BYTES);
    assert EnabledRun(Start(BYTES), []) && Run(Start(BYTES), []) == S0 && Clean(Start(BYTES), []);
  }

  lemma MakesS1() ensures Outside(S0, 0) && Taken(S0, 0) == S1 {}
  lemma MakesS2() ensures Outside(S1, 2) && Blocked(S1, 2) == S2 { Put2First(); }
  lemma MakesS3() ensures Enabled(S2, Drop(0)) && LetGo(S2, 0, Picked(2)) == S3 {}
  lemma MakesS4() ensures Outside(S3, 1) && Taken(S3, 1) == S4 {}

  lemma ToS1() ensures Reached(S1, true) { ToS0(); MakesS1(); GoTakes(S0, 0, S1, true); }
  lemma ToS2() ensures Reached(S2, true) { ToS1(); MakesS2(); GoBlocks(S1, 2, S2, true); }
  lemma ToS3() ensures Reached(S3, true) { ToS2(); MakesS3(); GoPicks(S2, 0, 2, S3, true); }
  lemma ToS4() ensures Reached(S4, true) { ToS3(); MakesS4(); GoTakes(S3, 1, S4, true); }

  // 1's release hands the port to 2 (A2), which uses it and leaves (A4).  0's claim on
  // 2's behalf finds that 2 is not the owner (A5) and makes it the owner (A6).
  const A1: Conc<Dev> := Four(None, LINKED_2, [2], {2}, {2}, Picked(2), Picked(2), Asleep, Idle, {})
  const A2: Conc<Dev> := Four(Some(2), UNLINKED, [], {}, {}, Picked(2), Idle, Asleep, Idle, {})
  const A3: Conc<Dev> := Four(Some(2), UNLINKED, [], {}, {}, Picked(2), Idle, Idle, Idle, {2})
  const A4: Conc<Dev> := Four(None, UNLINKED, [], {}, {}, Picked(2), Idle, Idle, Idle, {})
  const A5: Conc<Dev> := Four(None, UNLINKED, [], {}, {}, Reaching(2), Idle, Idle, Idle, {})
  const A6: Conc<Dev> := Four(Some(2), UNLINKED, [], {}, {}, Idle, Idle, Idle, Idle, {})

  lemma MakesA1() ensures Enabled(S4, Drop(1)) && LetGo(S4, 1, Picked(2)) == A1 {}
  lemma MakesA2()
    ensures HandedTo(A1, 1, 2) == A2
  {
    Taken22(); Out2Of2();
    HandedIs(A1, 1, 2, A2);
  }
  lemma MakesA3() ensures Enabled(A2, Wake(2)) && Woken(A2, 2) == A3 {}
  lemma MakesA4() ensures Enabled(A3, Drop(2)) && LetGo(A3, 2, Walk(A3.links.head)) == A4 {}
  lemma MakesA5() ensures Move(A4, 0, Reaching(2)) == A5 {}
  lemma MakesA6() ensures Strayed(A5, 0, 2) == A6 {}

  lemma ToA1() ensures Reached(A1, true) { ToS4(); MakesA1(); GoPicks(S4, 1, 2, A1, true); }
  lemma ToA2() ensures Reached(A2, true) { ToA1(); MakesA2(); GoHands(A1, 1, 2, A2, true); }
  lemma ToA3() ensures Reached(A3, true) { ToA2(); MakesA3(); GoWakes(A2, 2, A3, true); }
  lemma ToA4() ensures Reached(A4, true) { ToA3(); MakesA4(); GoLooks(A3, 2, A4, true); }
  lemma ToA5() ensures Reached(A5, true) { ToA4(); MakesA5(); GoTestsFor(A4, 0, 2, A5, true); }
  lemma ToA6() ensures Reached(A6, true) { ToA5(); MakesA6(); GoStray(A5, 0, 2, A6, true); }

  // The port can end up owned by a device whose thread does not know it.  By
  // StrandedStays it stays so, and all other claimers sleep, until that device
  // happens to claim again.
  lemma StrandedOwner()
    ensures Reached(A6, true) && Stranded(A6, 2) && A6.phase[2].Idle?
  {
    ToA6();
  }

  // ---- An owner on its own queue ----

  // 2 claims once more and passes its owner test (D2) before 0's claim makes it the
  // owner (D3).  In its own locked region it then finds an owner, itself, and is put
  // to sleep (D4).
  const D1: Conc<Dev> := Four(None, UNLINKED, [], {}, {2}, Reaching(2), Idle, Ready, Idle, {})
  const D2: Conc<Dev> := Four(None, UNLINKED, [], {}, {2}, Reaching(2), Idle, Tested, Idle, {})
  const D3: Conc<Dev> := Four(Some(2), UNLINKED, [], {}, {2}, Idle, Idle, Tested, Idle, {})
  const D4: Conc<Dev> := Four(Some(2), LINKED_2, [2], {2}, {2}, Idle, Idle, Asleep, Idle, {})

  lemma MakesD1()
    requires Known(A5)
    ensures Enabled(A5, Prepare(2)) && !BlocksOwner(A5, Prepare(2))
      && Step(A5, Prepare(2)) == D1
  {}
  lemma MakesD2()
    requires Known(D1)
    ensures Enabled(D1, Test(2)) && !BlocksOwner(D1, Test(2))
      && Step(D1, Test(2)) == D2
  {}
  lemma MakesD3() ensures Strayed(D2, 0, 2) == D3 {}
  lemma MakesD4()
    requires Known(D3)
    ensures Enabled(D3, Claim(2)) && BlocksOwner(D3, Claim(2))
      && Step(D3, Claim(2)) == D4
  { Put2First(); }

  lemma ToD1() ensures Reached(D1, true) { ToA5(); MakesD1(); GoOnce(A5, Prepare(2), D1, true); }
  lemma ToD2() ensures Reached(D2, true) { ToD1(); MakesD2(); GoOnce(D1, Test(2), D2, true); }
  lemma ToD3() ensures Reached(D3, true) { ToD2(); MakesD3(); GoStray(D2, 0, 2, D3, true); }
  lemma ToD4() ensures Reached(D4, false) { ToD3(); MakesD4(); Break(D3, Claim(2), D4, true); }

  // By DoomedStays the port is lost from D3 on.
  lemma DoomedOwner()
    ensures Reached(D3, true) && Doomed(D3, 2) && BlocksOwner(D3, Claim(2))
    ensures Reached(D4, false) && D4.owner == Some(2) && D4.links.head == Some(2) && D4.phase[2].Asleep?
  {
    ToD3();
    ToD4();
  }

  // ---- A lost waiter ----

  // From D2, 2's locked region comes first and gives it the port (L1); 0's then finds
  // 2 the owner and queues it (L2).  2 clears its waiting word (L3), and its release
  // passes itself over (L4): the port is idle, nobody is releasing, and 2 is linked in.
  // 1 takes the port (L5), 3 blocks (L6), and 2 blocks, which links it in once more
  // behind 3 and cuts its link to 3 (L7).  1's release serves 2 (L9), whose own finds
  // nobody to wake (L11).
  const L1: Conc<Dev> := Four(Some(2), UNLINKED, [], {}, {2}, Reaching(2), Idle, Got, Idle, {})
  const L2: Conc<Dev> := Four(Some(2), LINKED_2, [2], {2}, {2}, Idle, Idle, Got, Idle, {})
  const L3: Conc<Dev> := Four(Some(2), LINKED_2, [2], {}, {}, Idle, Idle, Idle, Idle, {2})
  const L4: Conc<Dev> := Four(None, LINKED_2, [2], {}, {}, Idle, Idle, Idle, Idle, {})
  const L5: Conc<Dev> := Four(Some(1), LINKED_2, [2], {}, {}, Idle, Idle, Idle, Idle, {1})
  const L6: Conc<Dev> := Four(Some(1), LINKED_23, [2, 3], {3}, {3}, Idle, Idle, Idle, Asleep, {1})
  const L7: Conc<Dev> := Four(Some(1), BROKEN_232, [2, 3, 2], {2, 3}, {2, 3}, Idle, Idle, Asleep, Asleep, {1})
  const L8: Conc<Dev> := Four(None, BROKEN_232, [2, 3, 2], {2, 3}, {2, 3}, Idle, Picked(2), Asleep, Asleep, {})
  const L9: Conc<Dev> := Four(Some(2), BROKEN_32, [3, 2], {3}, {3}, Idle, Idle, Asleep, Asleep, {})
  const L10: Conc<Dev> := Four(Some(2), BROKEN_32, [3, 2], {3}, {3}, Idle, Idle, Idle, Asleep, {2})
  const L11: Conc<Dev> := Four(None, BROKEN_32, [3, 2], {3}, {3}, Idle, Idle, Idle, Asleep, {})

  lemma MakesL1()
    requires Known(D2)
    ensures Enabled(D2, Claim(2)) && !BlocksOwner(D2, Claim(2))
      && Step(D2, Claim(2)) == L1
  {}
  lemma MakesL2() ensures Move(Joined(L1, 2), 0, Idle) == L2 { Put2First(); }
  lemma MakesL3()
    requires Known(L2)
    ensures Enabled(L2, Clear(2)) && !BlocksOwner(L2, Clear(2))
      && Step(L2, Clear(2)) == L3
  {}
  lemma MakesL4() ensures Enabled(L3, Drop(2)) && LetGo(L3, 2, Idle) == L4 {}
  lemma MakesL5() ensures Outside(L4, 1) && Taken(L4, 1) == L5 {}
  lemma MakesL6() ensures Outside(L5, 3) && Blocked(L5, 3) == L6 { Put32(); }
  lemma MakesL7() ensures Outside(L6, 2) && Blocked(L6, 2) == L7 { Put223(); }
  lemma MakesL8() ensures Enabled(L7, Drop(1)) && LetGo(L7, 1, Picked(2)) == L8 {}
  lemma MakesL9()
    ensures HandedTo(L8, 1, 2) == L9
  {
    Taken2Broken232(); Out2Of232();
    HandedIs(L8, 1, 2, L9);
  }
  lemma MakesL10() ensures Enabled(L9, Wake(2)) && Woken(L9, 2) == L10 {}
  lemma MakesL11() ensures Enabled(L10, Drop(2)) && LetGo(L10, 2, Idle) == L11 {}

  lemma ToL1() ensures Reached(L1, true) { ToD2(); MakesL1(); GoOnce(D2, Claim(2), L1, true); }
  lemma ToL2() ensures Reached(L2, false) { ToL1(); MakesL2(); BreakHands(L1, 0, 2, L2, true); }
  lemma ToL3() ensures Reached(L3, false) { ToL2(); MakesL3(); GoOnce(L2, Clear(2), L3, false); }
  lemma ToL4() ensures Reached(L4, false) { ToL3(); MakesL4(); GoPasses(L3, 2, 2, L4, false); }
  lemma ToL5() ensures Reached(L5, false) { ToL4(); MakesL5(); GoTakes(L4, 1, L5, false); }
  lemma ToL6() ensures Reached(L6, false) { ToL5(); MakesL6(); GoBlocks(L5, 3, L6, false); }
  lemma ToL7() ensures Reached(L7, false) { ToL6(); MakesL7(); GoBlocks(L6, 2, L7, false); }
  lemma ToL8() ensures Reached(L8, false) { ToL7(); MakesL8(); GoPicks(L7, 1, 2, L8, false); }
  lemma ToL9() ensures Reached(L9, false) { ToL8(); MakesL9(); GoHands(L8, 1, 2, L9, false); }
  lemma ToL10() ensures Reached(L10, false) { ToL9(); MakesL10(); GoWakes(L9, 2, L10, false); }
  lemma ToL11() ensures Reached(L11, false) { ToL10(); MakesL11(); GoPasses(L10, 2, 2, L11, false); }

  lemma IdleWithTwo()
    ensures L4.owner == None && L4.links.head == Some(2) && 2 !in L4.queued && forall d <- L4.phase :: L4.phase[d].Idle?
  {}

  lemma ThreeIsLost()
    ensures L11.owner == None && Unreachable(L11, 3) && forall d <- L11.phase :: !Releasing(L11.phase[d])
  {}

  lemma WaiterLost()
    ensures Reached(L1, true) && Reached(L2, false)
    ensures Enabled(L1, Hand(0)) && BlocksOwner(L1, Hand(0)) && Step(L1, Hand(0)) == L2
    ensures Reached(L4, false) && L4.owner == None && L4.links.head == Some(2) && 2 !in L4.queued
    ensures forall d <- L4.phase :: L4.phase[d].Idle?
    ensures Reached(L11, false) && L11.owner == None && Unreachable(L11, 3)
    ensures forall d <- L11.phase :: !Releasing(L11.phase[d])
  {
    ToL1();
    MakesL2();
    BreakHands(L1, 0, 2, L2, true);
    ToL4();
    IdleWithTwo();
    ToL11();
    ThreeIsLost();
  }

  // ---- A waiter that overtakes another ----

  // 3 queues up behind 2 (B1), and 1's release hands the port to 2 (B3).  2 leaves, 1
  // gets the port again (B6) before 2's release can hand it to 3 (B9), and 2 queues up
  // once more, now behind 3 (B10).  0's release, which chose 2 long ago, claims on its
  // behalf (B11), 1 lets go (B12), and 2 is the owner (B13).
  const B1: Conc<Dev> := Four(Some(1), LINKED_23, [2, 3], {2, 3}, {2, 3}, Picked(2), Idle, Asleep, Asleep, {1})
  const B2: Conc<Dev> := Four(None, LINKED_23, [2, 3], {2, 3}, {2, 3}, Picked(2), Picked(2), Asleep, Asleep, {})
  const B3: Conc<Dev> := Four(Some(2), LINKED_3, [3], {3}, {3}, Picked(2), Idle, Asleep, Asleep, {})
  const B4: Conc<Dev> := Four(Some(2), LINKED_3, [3], {3}, {3}, Picked(2), Idle, Idle, Asleep, {2})
  const B5: Conc<Dev> := Four(None, LINKED_3, [3], {3}, {3}, Picked(2), Idle, Walking(3), Asleep, {})
  const B6: Conc<Dev> := Four(Some(1), LINKED_3, [3], {3}, {3}, Picked(2), Idle, Walking(3), Asleep, {1})
  const B7: Conc<Dev> := Four(Some(1), LINKED_3, [3], {3}, {3}, Picked(2), Idle, Picked(3), Asleep, {1})
  const B8: Conc<Dev> := Four(Some(1), LINKED_3, [3], {3}, {3}, Picked(2), Idle, Reaching(3), Asleep, {1})
  const B9: Conc<Dev> := Four(Some(1), LINKED_3, [3], {3}, {3}, Picked(2), Idle, Idle, Asleep, {1})
  const B10: Conc<Dev> := Four(Some(1), LINKED_32, [3, 2], {2, 3}, {2, 3}, Picked(2), Idle, Asleep, Asleep, {1})
  const B11: Conc<Dev> := Four(Some(1), LINKED_32, [3, 2], {2, 3}, {2, 3}, Reaching(2), Idle, Asleep, Asleep, {1})
  const B12: Conc<Dev> := Four(None, LINKED_32, [3, 2], {2, 3}, {2, 3}, Reaching(2), Dropped, Asleep, Asleep, {})
  const B13: Conc<Dev> := Four(Some(2), LINKED_3, [3], {3}, {3}, Idle, Dropped, Asleep, Asleep, {})

  lemma MakesB1() ensures Outside(S4, 3) && Blocked(S4, 3) == B1 { Put32(); }
  lemma MakesB2() ensures Enabled(B1, Drop(1)) && LetGo(B1, 1, Picked(2)) == B2 {}
  lemma MakesB3()
    ensures HandedTo(B2, 1, 2) == B3
  {
    Taken223(); Out2Of23();
    HandedIs(B2, 1, 2, B3);
  }
  lemma MakesB4() ensures Enabled(B3, Wake(2)) && Woken(B3, 2) == B4 {}
  lemma MakesB5() ensures Enabled(B4, Drop(2)) && LetGo(B4, 2, Walk(B4.links.head)) == B5 {}
  lemma MakesB6() ensures Outside(B5, 1) && Taken(B5, 1) == B6 {}
  lemma MakesB7()
    requires Known(B6)
    ensures Enabled(B6, Check(2)) && !BlocksOwner(B6, Check(2))
      && Step(B6, Check(2)) == B7
  {}
  lemma MakesB8() ensures Move(B7, 2, Reaching(3)) == B8 {}
  lemma MakesB9()
    requires Known(B8)
    ensures Enabled(B8, Hand(2)) && !BlocksOwner(B8, Hand(2))
      && Step(B8, Hand(2)) == B9
  {}
  lemma MakesB10() ensures Outside(B9, 2) && Blocked(B9, 2) == B10 { Put23(); }
  lemma MakesB11() ensures Move(B10, 0, Reaching(2)) == B11 {}
  lemma MakesB12()
    requires Known(B11)
    ensures Enabled(B11, Drop(1)) && !BlocksOwner(B11, Drop(1))
      && Step(B11, Drop(1)) == B12
  {}
  lemma MakesB13()
    ensures HandedTo(B12, 0, 2) == B13
  {
    Taken232(); Out2Of32();
    HandedIs(B12, 0, 2, B13);
  }

  lemma ToB1() ensures Reached(B1, true) { ToS4(); MakesB1(); GoBlocks(S4, 3, B1, true); }
  lemma ToB2() ensures Reached(B2, true) { ToB1(); MakesB2(); GoPicks(B1, 1, 2, B2, true); }
  lemma ToB3() ensures Reached(B3, true) { ToB2(); MakesB3(); GoHands(B2, 1, 2, B3, true); }
  lemma ToB4() ensures Reached(B4, true) { ToB3(); MakesB4(); GoWakes(B3, 2, B4, true); }
  lemma ToB5() ensures Reached(B5, true) { ToB4(); MakesB5(); GoLooks(B4, 2, B5, true); }
  lemma ToB6() ensures Reached(B6, true) { ToB5(); MakesB6(); GoTakes(B5, 1, B6, true); }
  lemma ToB7() ensures Reached(B7, true) { ToB6(); MakesB7(); GoOnce(B6, Check(2), B7, true); }
  lemma ToB8() ensures Reached(B8, true) { ToB7(); MakesB8(); GoTestsFor(B7, 2, 3, B8, true); }
  lemma ToB9() ensures Reached(B9, true) { ToB8(); MakesB9(); GoOnce(B8, Hand(2), B9, true); }
  lemma ToB10() ensures Reached(B10, true) { ToB9(); MakesB10(); GoBlocks(B9, 2, B10, true); }
  lemma ToB11() ensures Reached(B11, true) { ToB10(); MakesB11(); GoTestsFor(B10, 0, 2, B11, true); }
  lemma ToB12() ensures Reached(B12, true) { ToB11(); MakesB12(); GoOnce(B11, Drop(1), B12, true); }
  lemma ToB13() ensures Reached(B13, true) { ToB12(); MakesB13(); GoServes(B12, 0, 2, B13, true); }

  lemma OvertakesThree()
    requires Known(B12)
    ensures Enabled(B12, Hand(0)) && B12.links.head == Some(3) && !InTurn(B12, Hand(0))
  {}

  // 2 is served although 3 came first.
  lemma ServedOutOfTurn()
    ensures Reached(B12, true) && B12.links.head == Some(3) && Enabled(B12, Hand(0)) && !InTurn(B12, Hand(0))
    ensures Step(B12, Hand(0)) == B13 && B13.owner == Some(2) && B13.links.head == Some(3)
  {
    ToB12();
    OvertakesThree();
    MakesB13();
    Serves(B12, 0, 2);
  }

  // ---- A release that saves somebody else's control byte ----

  // 0 owns the port and has changed its control byte; 1 claims between the two
  // halves of 0's release.
  const C1: Conc<Dev> := S1.(ctr := 0x0E)
  const C2: Conc<Dev> := Four(None, UNLINKED, [], {}, {}, Dropped, Idle, Idle, Idle, {}).(ctr := 0x0E)
  const C3: Conc<Dev> := Four(Some(1), UNLINKED, [], {}, {}, Dropped, Idle, Idle, Idle, {1})

  lemma MakesC1() requires Known(S1) ensures Enabled(S1, Control(0, 2, 2)) && Step(S1, Control(0, 2, 2)) == C1 {}
  lemma MakesC2() requires Known(C1) ensures Enabled(C1, Drop(0)) && Step(C1, Drop(0)) == C2 {}
  lemma MakesC3() ensures Outside(C2, 1) && Taken(C2, 1) == C3 {}
  lemma SavesC3() requires Known(C3) ensures Enabled(C3, Save(0)) && Step(C3, Save(0)).saved[0] == 0x0C {}

  lemma ToC1() ensures Reached(C1, true) { ToS1(); MakesC1(); GoOnce(S1, Control(0, 2, 2), C1, true); }
  lemma ToC2() ensures Reached(C2, true) { ToC1(); MakesC2(); GoOnce(C1, Drop(0), C2, true); }
  lemma ToC3() ensures Reached(C3, true) { ToC2(); MakesC3(); GoTakes(C2, 1, C3, true); }

  // Device 0 leaves with 0x0E in the register; 0x0C is what is saved for it.
  lemma ContextLost()
    ensures Reached(C1, true) && C1.owner == Some(0) && C1.ctr == 0x0E
    ensures Enabled(C1, Drop(0)) && Step(C1, Drop(0)) == C2 && Taken(C2, 1) == C3
    ensures Reached(C3, true) && Enabled(C3, Save(0)) && Step(C3, Save(0)).saved[0] == 0x0C
  {
    ToC1();
    MakesC2();
    MakesC3();
    ToC3();
    SavesC3();
  }
}
