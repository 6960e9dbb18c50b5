// Undisturbed stretches of the interleaved arbiter: what a whole claim or a whole
// release does when no other thread runs in between (driver/snx_share.c:796-988).

module InterleavedRuns {
  import opened Options
  import opened ControlRegister
  import Arbiter
  import opened WaitLinks
  import opened InterleavedArbiter
  import opened InterleavedInvariant

  // The run es takes s to t, and no locked region in it blocks the owner.
  predicate Goes<D>(s: Conc<D>, es: seq<Event<D>>, t: Conc<D>) {
    Known(s) && EnabledRun(s, es) && Clean(s, es) && Run(s, es) == t
  }

  lemma Then<D>(s: Conc<D>, es: seq<Event<D>>, t: Conc<D>, fs: seq<Event<D>>, u: Conc<D>)
    requires Goes(s, es, t) && Goes(t, fs, u)
    ensures Goes(s, es + fs, u)
  {
    RunAppend(s, es, fs);
    CleanAppend(s, es, fs);
  }

  lemma OneStep<D>(s: Conc<D>, e: Event<D>)
    requires Known(s) && Enabled(s, e)
    ensures Known(Step(s, e)) && EnabledRun(s, [e]) && Run(s, [e]) == Step(s, e)
  {
    KnownStep(s, e);
    assert [e][1..] == [];
  }

  lemma Once<D>(s: Conc<D>, e: Event<D>, t: Conc<D>)
    requires Known(s) && Enabled(s, e) && !BlocksOwner(s, e) && Step(s, e) == t
    ensures Goes(s, [e], t) && Known(t)
  {
    OneStep(s, e);
    assert [e][1..] == [];
  }

  lemma Also<D>(s: Conc<D>, es: seq<Event<D>>, t: Conc<D>, e: Event<D>, u: Conc<D>)
    requires Goes(s, es, t) && Known(t) && Enabled(t, e) && !BlocksOwner(t, e) && Step(t, e) == u
    ensures Goes(s, es + [e], u) && Known(u)
  {
    Once(t, e, u);
    Then(s, es, t, [e], u);
  }

  // d's thread is outside, and its waiting word is zero.
  predicate Outside<D>(s: Conc<D>, d: D) {
    d in s.phase && s.phase[d].Idle? && d !in s.holding && d !in s.queued && d !in s.sleeps
  }

  // ---- Claiming ----

  // The store at the end of a claim zeroes the waiting word, whatever was in it, and
  // leaves links and owner as they are, and only the device's own thread with the port.
  lemma ZeroesWord<D>(s: Conc<D>, d: D)
    requires Known(s) && Enabled(s, Clear(d))
    ensures var t := Step(s, Clear(d));
            && d !in t.queued && d !in t.sleeps && d in t.holding && t.phase == s.phase[d := Idle]
            && t.links == s.links && t.queue == s.queue && t.owner == s.owner && t.ctr == s.ctr && t.saved == s.saved
    ensures forall e <- s.phase :: e != d ==>
              var t := Step(s, Clear(d));
              (e in t.queued <==> e in s.queued) && (e in t.sleeps <==> e in s.sleeps) && (e in t.holding <==> e in s.holding)
  {}

  // Only an owner that knows of it writes the register, and a write changes nothing else.
  lemma Controls<D>(s: Conc<D>, d: D, mask: bv8, val: bv8)
    requires Known(s) && Enabled(s, Control(d, mask, val))
    ensures s.owner == Some(d) && d in s.holding
    ensures var t := Step(s, Control(d, mask, val)); t == s.(ctr := t.ctr) && Frobbed(s.ctr, mask, val, t.ctr)
  {
    FrobBits(s.ctr, mask, val);
  }

  function Asking<D>(s: Conc<D>, d: D): Conc<D> {
    Move(s, d, Tested).(sleeps := s.sleeps + {d})
  }

  lemma Asks<D>(s: Conc<D>, d: D)
    requires Known(s) && Outside(s, d) && s.owner != Some(d)
    ensures Goes(s, [Prepare(d), Test(d)], Asking(s, d)) && Known(Asking(s, d))
  {
    var t := Move(s, d, Ready).(sleeps := s.sleeps + {d});
    assert s.queued - {d} == s.queued;
    Once(s, Prepare(d), t);
    assert t.phase[d := Tested] == s.phase[d := Tested];
    Also(s, [Prepare(d)], t, Test(d), Asking(s, d));
    assert [Prepare(d)] + [Test(d)] == [Prepare(d), Test(d)];
  }

  function Taken<D>(s: Conc<D>, d: D): Conc<D>
    requires d in s.saved
  {
    s.(owner := Some(d), holding := s.holding + {d}, ctr := s.saved[d] & CTR_WRITABLE)
  }

  lemma Clears<D>(s: Conc<D>, d: D, t: Conc<D>)
    requires Known(s) && Outside(s, d)
    requires t == Move(s, d, Got).(sleeps := s.sleeps + {d}, owner := Some(d), ctr := s.saved[d] & CTR_WRITABLE)
    ensures d in t.phase && Enabled(t, Clear(d)) && Known(t)
    ensures Step(t, Clear(d)) == Taken(s, d)
  {
    MovedKnown(s, d, Got, t);
    assert t.phase[d := Idle] == s.phase;
    assert t.sleeps - {d} == s.sleeps && t.queued - {d} == s.queued;
  }

  lemma Gets<D>(s: Conc<D>, d: D, t: Conc<D>)
    requires Known(s) && Outside(s, d) && s.owner == None
    requires t == Move(s, d, Got).(sleeps := s.sleeps + {d}, owner := Some(d), ctr := s.saved[d] & CTR_WRITABLE)
    ensures Goes(s, [Prepare(d), Test(d), Claim(d)], t)
  {
    Asks(s, d);
    assert Asking(s, d).phase[d := Got] == t.phase;
    Also(s, [Prepare(d), Test(d)], Asking(s, d), Claim(d), t);
    assert [Prepare(d), Test(d)] + [Claim(d)] == [Prepare(d), Test(d), Claim(d)];
  }

  function Taking<D>(d: D): seq<Event<D>> {
    [Prepare(d), Test(d), Claim(d), Clear(d)]
  }

  lemma Takes<D>(s: Conc<D>, d: D)
    requires Known(s) && Outside(s, d) && s.owner == None
    ensures Goes(s, Taking(d), Taken(s, d))
  {
    var t := Move(s, d, Got).(sleeps := s.sleeps + {d}, owner := Some(d), ctr := s.saved[d] & CTR_WRITABLE);
    Gets(s, d, t);
    Clears(s, d, t);
    Also(s, [Prepare(d), Test(d), Claim(d)], t, Clear(d), Taken(s, d));
    assert [Prepare(d), Test(d), Claim(d)] + [Clear(d)] == Taking(d);
  }

  function Blocking<D>(d: D): seq<Event<D>> {
    [Prepare(d), Test(d), Claim(d)]
  }

  function Blocked<D>(s: Conc<D>, d: D): Conc<D> {
    Move(Joined(s, d), d, Asleep).(sleeps := s.sleeps + {d})
  }

  lemma Blocks<D>(s: Conc<D>, d: D)
    requires Known(s) && Outside(s, d) && s.owner != None && s.owner != Some(d)
    ensures Goes(s, Blocking(d), Blocked(s, d))
  {
    Asks(s, d);
    assert Asking(s, d).phase[d := Asleep] == s.phase[d := Asleep];
    Also(s, [Prepare(d), Test(d)], Asking(s, d), Claim(d), Blocked(s, d));
    assert [Prepare(d), Test(d)] + [Claim(d)] == Blocking(d);
  }

  // ---- Waking ----

  function Waking<D>(d: D): seq<Event<D>> {
    [Wake(d), Clear(d)]
  }

  function Woken<D>(s: Conc<D>, d: D): Conc<D> {
    Move(s, d, Idle).(holding := s.holding + {d})
  }

  lemma Wakes<D>(s: Conc<D>, d: D)
    requires Known(s) && Enabled(s, Wake(d))
    ensures Goes(s, Waking(d), Woken(s, d))
  {
    var t := Move(s, d, Got);
    Once(s, Wake(d), t);
    assert t.phase[d := Idle] == s.phase[d := Idle] && s.queued - {d} == s.queued && s.sleeps - {d} == s.sleeps;
    Also(s, [Wake(d)], t, Clear(d), Woken(s, d));
    assert [Wake(d)] + [Clear(d)] == Waking(d);
  }

  // ---- Releasing ----

  // d has let go and saved.
  function LetGo<D>(s: Conc<D>, d: D, p: Phase<D>): Conc<D> {
    Move(s, d, p).(owner := None, holding := s.holding - {d}, saved := s.saved[d := s.ctr])
  }

  lemma LetsGo<D>(s: Conc<D>, d: D)
    requires Known(s) && Enabled(s, Drop(d))
    ensures Goes(s, [Drop(d), Save(d)], LetGo(s, d, Saved)) && Known(LetGo(s, d, Saved))
  {
    var t := Move(s, d, Dropped).(owner := None, holding := s.holding - {d});
    Once(s, Drop(d), t);
    assert t.phase[d := Saved] == s.phase[d := Saved];
    Also(s, [Drop(d)], t, Save(d), LetGo(s, d, Saved));
    assert [Drop(d)] + [Save(d)] == [Drop(d), Save(d)];
  }

  function Looking<D>(d: D): seq<Event<D>> {
    [Drop(d), Save(d), Look(d)]
  }

  lemma Looks<D>(s: Conc<D>, d: D)
    requires Known(s) && Enabled(s, Drop(d))
    ensures Goes(s, Looking(d), LetGo(s, d, Walk(s.links.head)))
    ensures Known(LetGo(s, d, Walk(s.links.head)))
  {
    LetsGo(s, d);
    var t := LetGo(s, d, Saved);
    assert t.phase[d := Walk(s.links.head)] == s.phase[d := Walk(s.links.head)];
    Also(s, [Drop(d), Save(d)], t, Look(d), LetGo(s, d, Walk(s.links.head)));
    assert [Drop(d), Save(d)] + [Look(d)] == Looking(d);
  }

  function Picking<D>(d: D): seq<Event<D>> {
    [Drop(d), Save(d), Look(d), Check(d)]
  }

  // The first waiter waits.
  lemma Picks<D>(s: Conc<D>, d: D, w: D)
    requires Known(s) && Enabled(s, Drop(d)) && s.links.head == Some(w) && w in s.sleeps
    ensures Goes(s, Picking(d), LetGo(s, d, Picked(w)))
    ensures Known(LetGo(s, d, Picked(w)))
  {
    Looks(s, d);
    var t := LetGo(s, d, Walking(w));
    assert t.phase[d := Picked(w)] == s.phase[d := Picked(w)];
    Also(s, [Drop(d), Save(d), Look(d)], t, Check(d), LetGo(s, d, Picked(w)));
    assert [Drop(d), Save(d), Look(d)] + [Check(d)] == Picking(d);
  }

  function Handing<D>(d: D): seq<Event<D>> {
    [TestFor(d), Hand(d)]
  }

  // The walk of d's release gives the port to w, which is queued ...
  function HandedTo<D>(s: Conc<D>, d: D, w: D): Conc<D>
    requires w in s.links.next && w in s.links.prev && w in s.saved
  {
    s.(owner := Some(w), links := Splice(s.links, w), queue := Arbiter.Without(s.queue, w),
       queued := s.queued - {w}, sleeps := s.sleeps - {w}, phase := s.phase[d := Idle],
       ctr := s.saved[w] & CTR_WRITABLE)
  }

  // ... or is not.
  function Strayed<D>(s: Conc<D>, d: D, w: D): Conc<D>
    requires w in s.saved
  {
    Move(s, d, Idle).(owner := Some(w), ctr := s.saved[w] & CTR_WRITABLE)
  }

  lemma Serves<D>(s: Conc<D>, d: D, w: D)
    requires Known(s) && d in s.phase && s.phase[d] == Reaching(w) && s.owner == None && w in s.queued
    ensures w in s.phase && Enabled(s, Hand(d)) && Step(s, Hand(d)) == HandedTo(s, d, w)
    ensures Goes(s, [Hand(d)], HandedTo(s, d, w))
  {
    Once(s, Hand(d), HandedTo(s, d, w));
  }

  lemma Strays<D>(s: Conc<D>, d: D, w: D)
    requires Known(s) && d in s.phase && s.phase[d] == Reaching(w) && s.owner == None && w !in s.queued
    ensures w in s.phase && Goes(s, [Hand(d)], Strayed(s, d, w))
  {
    Once(s, Hand(d), Strayed(s, d, w));
  }

  // A walk that has chosen the device that owns the port by then ends there, with
  // nothing else changed ...
  lemma EndsAtOwner<D>(s: Conc<D>, d: D, w: D)
    requires Known(s) && d in s.phase && s.phase[d] == Picked(w) && s.owner == Some(w)
    ensures Goes(s, [TestFor(d)], Move(s, d, Idle))
  {
    Once(s, TestFor(d), Move(s, d, Idle));
  }

  // ... and one that has chosen a device still queued gives it the port if nobody owns it.
  lemma Hands<D>(s: Conc<D>, d: D, w: D)
    requires Known(s) && d in s.phase && s.phase[d] == Picked(w) && s.owner == None && w in s.queued
    ensures w in s.phase && Goes(s, Handing(d), HandedTo(s, d, w))
  {
    var t := Move(s, d, Reaching(w));
    Once(s, TestFor(d), t);
    assert t.phase[d := Idle] == s.phase[d := Idle];
    Serves(t, d, w);
    Then(s, [TestFor(d)], t, [Hand(d)], HandedTo(s, d, w));
    assert [TestFor(d)] + [Hand(d)] == Handing(d);
  }

  function Passing<D>(d: D): seq<Event<D>> {
    [Drop(d), Save(d), Look(d), Check(d), Next(d)]
  }

  // Nobody but a device that does not wait is linked in.
  lemma PassesOver<D>(s: Conc<D>, d: D, w: D)
    requires Known(s) && Enabled(s, Drop(d)) && s.links.head == Some(w) && w !in s.sleeps && w in s.links.next
    requires s.links.next[w] == None
    ensures Goes(s, Passing(d), LetGo(s, d, Idle))
  {
    Looks(s, d);
    var t, u := LetGo(s, d, Walking(w)), LetGo(s, d, Passed(w));
    assert t.phase[d := Passed(w)] == s.phase[d := Passed(w)];
    Also(s, [Drop(d), Save(d), Look(d)], t, Check(d), u);
    assert u.phase[d := Idle] == s.phase[d := Idle];
    Also(s, [Drop(d), Save(d), Look(d)] + [Check(d)], u, Next(d), LetGo(s, d, Idle));
    assert [Drop(d), Save(d), Look(d)] + [Check(d)] + [Next(d)] == Passing(d);
  }
}
