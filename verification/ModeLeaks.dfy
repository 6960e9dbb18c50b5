// Why a yield out of compatibility mode is all that modes have to fear
// (driver/snx_ppdev.c): after every such yield a file can be told a mode that is not
// the one it asked for.

module ModeLeaks {
  import opened Options
  import Arbiter
  import opened PortSharing

  ghost predicate Goes<D(!new)>(s: Sys<D>, es: seq<Event<D>>, t: Sys<D>) {
    Inv(s) && EnabledRun(s, es) && Run(s, es) == t
  }

  lemma Cons<D(!new)>(s: Sys<D>, e: Event<D>, es: seq<Event<D>>, t: Sys<D>)
    requires Inv(s) && Enabled(s, e) && Goes(Step(s, e), es, t)
    ensures Goes(s, [e] + es, t)
  {
    assert ([e] + es)[1..] == es;
  }

  // An event that can change what a file asked for last.
  predicate Asks<D>(e: Event<D>) {
    e.Open? || e.SetMode? || e.Close?
  }

  // The same clients with the same own modes.
  predicate SameModes<D>(s: Sys<D>, t: Sys<D>) {
    && s.clients.Keys == t.clients.Keys
    && (forall x <- s.clients :: t.clients[x].state.mode == s.clients[x].state.mode)
    && (forall x <- s.clients :: t.clients[x].printer == s.clients[x].printer)
  }

  // The file x, between its calls, is told another mode than its own.
  predicate Misled<D>(s: Sys<D>, x: D) {
    && x in s.clients && !s.clients[x].printer && s.clients[x].call == Idle
    && ModeOf(ViewOf(s, x)) != s.clients[x].state.mode
  }

  // d has yielded with the port in its mode k; its device waits, next to last, behind
  // it the freshly opened f; and nobody else is inside.
  predicate Leaked<D>(t: Sys<D>, d: D, f: D, k: bv32) {
    && Inv(t) && k != COMPAT && t.info.mode == k
    && d in t.clients && f in t.clients && d != f
    && |t.arb.queue| >= 2 && t.arb.queue[|t.arb.queue| - 2] == d && t.arb.queue[|t.arb.queue| - 1] == f
    && IsYielding(t, d, k)
    && !t.clients[f].printer && t.clients[f].call == Claiming && t.clients[f].state.mode == COMPAT
    && t.arb.owner.Some? && t.arb.owner.value in t.clients && t.clients[t.arb.owner.value].call != Idle
    && OthersCompat(t, d)
  }

  predicate IsYielding<D>(t: Sys<D>, d: D, k: bv32) {
    && d in t.clients && !t.clients[d].printer && t.clients[d].claimed && t.clients[d].call == Yielding
    && t.clients[d].state.mode == k
  }

  predicate OthersCompat<D>(t: Sys<D>, d: D) {
    forall x <- t.clients :: x != d && !t.clients[x].printer && t.clients[x].claimed ==> t.clients[x].state.mode == COMPAT
  }

  // ---- The owner takes its turn ----

  // It is told k although it asked for compatibility mode ...
  lemma YielderMisled<D>(t: Sys<D>, d: D, f: D, k: bv32)
    requires Leaked(t, d, f, k)
    requires var w := t.arb.owner.value; !t.clients[w].printer && t.clients[w].call == Yielding
    ensures var w := t.arb.owner.value; var u := CallOver(t, w);
            Enabled(t, Granted(w)) && SameModes(t, u) && Misled(u, w)
  {
    var w := t.arb.owner.value;
    assert ClientOk(t.arb, w, t.clients[w]);
  }

  // ... or it takes the port, uses it and releases it, still in mode k.

  lemma TurnGranted<D>(t: Sys<D>, d: D, f: D, k: bv32)
    requires Leaked(t, d, f, k)
    ensures var w := t.arb.owner.value; var u := CallOver(t, w);
            && Enabled(t, Granted(w)) && Inv(u) && SameModes(t, u)
            && u.arb == t.arb && Enabled(u, Release(w))
  {
    var w := t.arb.owner.value;
    assert ClientOk(t.arb, w, t.clients[w]);
    CallOverInv(t, w);
  }

  // The release of w from u, which is t with w's call over.
  lemma TurnClients<D>(t: Sys<D>, w: D, u: Sys<D>, k: bv32)
    requires Inv(t) && Enabled(t, Granted(w)) && t.info.mode == k
    requires u == CallOver(t, w) && Inv(u) && w in u.arb.saved
    requires t.clients[w].printer || t.clients[w].call == Claiming
    ensures var v := ClientReleased(u, w);
            && SameModes(t, v) && v.info.mode == k && !v.clients[w].claimed
            && (forall x <- t.clients :: x != w ==> v.clients[x] == t.clients[x])
  {}

  lemma TurnQueue<D>(a: Arbiter.Arb<D>, w: D)
    requires Arbiter.Inv(a) && a.owner == Some(w) && a.queue != []
    ensures w in a.saved && Arbiter.Released(a, w).owner == Some(a.queue[0]) && Arbiter.Released(a, w).queue == a.queue[1..]
  {}

  lemma TurnTaken<D>(t: Sys<D>, d: D, f: D, k: bv32)
    requires Leaked(t, d, f, k)
    requires var w := t.arb.owner.value; t.clients[w].printer || t.clients[w].call == Claiming
    ensures var w := t.arb.owner.value;
            && Enabled(t, Granted(w)) && Inv(CallOver(t, w))
            && Enabled(CallOver(t, w), Release(w))
            && Passed(t, ClientReleased(CallOver(t, w), w), w, k)
  {
    var w := t.arb.owner.value;
    TurnGranted(t, d, f, k);
    TurnQueue(t.arb, w);
    TurnClients(t, w, CallOver(t, w), k);
    ClientReleasedInv(CallOver(t, w), w);
  }

  // From t to v the owner w had its turn.
  predicate Passed<D>(t: Sys<D>, v: Sys<D>, w: D, k: bv32) {
    && Inv(v) && t.arb.queue != [] && v.arb.owner == Some(t.arb.queue[0]) && v.arb.queue == t.arb.queue[1..]
    && SameModes(t, v) && v.info.mode == k && w in v.clients && !v.clients[w].claimed
    && (forall x <- t.clients :: x != w ==> v.clients[x] == t.clients[x])
  }

  lemma StillLeaked<D>(t: Sys<D>, v: Sys<D>, d: D, f: D, k: bv32)
    requires Leaked(t, d, f, k) && Passed(t, v, t.arb.owner.value, k) && |t.arb.queue| > 2
    ensures Leaked(v, d, f, k)
  {
    var w, h := t.arb.owner.value, t.arb.queue[0];
    assert h in t.arb.queue && d in t.arb.queue && f in t.arb.queue;
    assert h in t.clients && ClientOk(t.arb, h, t.clients[h]);
  }

  // d has the port back, still in mode k, and only f waits.
  predicate Back<D>(v: Sys<D>, d: D, f: D, k: bv32) {
    && Inv(v) && k != COMPAT && v.info.mode == k && d != f
    && v.arb.owner == Some(d) && v.arb.queue == [f] && IsYielding(v, d, k)
    && f in v.clients && !v.clients[f].printer && v.clients[f].call == Claiming && v.clients[f].state.mode == COMPAT
  }

  lemma NowBack<D>(t: Sys<D>, v: Sys<D>, d: D, f: D, k: bv32)
    requires Leaked(t, d, f, k) && Passed(t, v, t.arb.owner.value, k) && |t.arb.queue| == 2
    ensures Back(v, d, f, k)
  {
    assert d in t.arb.queue && f in t.arb.queue;
  }

  // ---- d and f yield to each other ----

  lemma YieldQueue<D>(a: Arbiter.Arb<D>, d: D, f: D)
    requires Arbiter.Inv(a) && a.owner == Some(d) && a.queue == [f]
    ensures d in a.saved && f in a.saved && d != f
    ensures Arbiter.Yielded(a, d, true).owner == Some(f) && Arbiter.Yielded(a, d, true).queue == [d]
  {
    assert f in a.queue;
  }

  // d goes on and yields once more.
  function Again<D>(v: Sys<D>, d: D): Sys<D>
    requires Inv(v) && v.arb.owner == Some(d) && d in v.clients && Inv(CallOver(v, d))
    requires d in v.arb.saved
  {
    YieldBegun(CallOver(v, d), d, true)
  }

  lemma Yields<D>(v: Sys<D>, d: D, f: D)
    requires Inv(v) && v.arb.owner == Some(d) && v.arb.queue == [f]
    requires d in v.clients && v.clients[d].call != Idle
    ensures Enabled(v, Granted(d)) && Inv(CallOver(v, d)) && d in v.arb.saved
    ensures Enabled(CallOver(v, d), Yield(d, true)) && Inv(Again(v, d))
    ensures Again(v, d).arb.owner == Some(f) && Again(v, d).arb.queue == [d]
  {
    CallOverInv(v, d);
    YieldQueue(v.arb, d, f);
    assert ClientOk(v.arb, d, v.clients[d]);
    YieldBegunInv(CallOver(v, d), d, true);
  }

  lemma FirstYield<D>(v: Sys<D>, d: D, f: D, k: bv32)
    requires Back(v, d, f, k) && Inv(CallOver(v, d)) && d in v.arb.saved
    ensures var u := Again(v, d); SameModes(v, u) && u.info.mode == k && u.clients[f] == v.clients[f] && IsYielding(u, d, k)
  {}

  lemma SecondYield<D>(u: Sys<D>, d: D, f: D, k: bv32)
    requires Inv(u) && u.arb.owner == Some(f) && IsYielding(u, d, k) && d != f && f in u.clients
    requires !u.clients[f].printer && u.clients[f].call == Claiming && u.clients[f].state.mode == COMPAT
    requires Inv(CallOver(u, f)) && f in u.arb.saved
    ensures var v := Again(u, f); SameModes(u, v) && v.info.mode == COMPAT && IsYielding(v, d, k)
  {}

  lemma Returns<D>(v: Sys<D>, d: D, k: bv32)
    requires Inv(v) && v.arb.owner == Some(d) && IsYielding(v, d, k) && v.info.mode == COMPAT && k != COMPAT
    ensures Enabled(v, Granted(d)) && SameModes(v, CallOver(v, d)) && Misled(CallOver(v, d), d)
  {}

  // The run es leads from t to a state in which x is misled, and nobody asks for a
  // mode in it.
  ghost predicate Misleads<D(!new)>(t: Sys<D>, es: seq<Event<D>>, x: D) {
    && Inv(t) && EnabledRun(t, es) && (forall e <- es :: !Asks(e))
    && SameModes(t, Run(t, es)) && Misled(Run(t, es), x)
  }

  lemma NextMisleads<D(!new)>(t: Sys<D>, e: Event<D>, u: Sys<D>, es: seq<Event<D>>, x: D)
    requires Inv(t) && Enabled(t, e) && !Asks(e) && Step(t, e) == u && SameModes(t, u)
    requires Misleads(u, es, x)
    ensures Misleads(t, [e] + es, x)
  {
    Cons(t, e, es, Run(u, es));
  }

  lemma LastMisleads<D(!new)>(t: Sys<D>, e: Event<D>, u: Sys<D>, x: D)
    requires Inv(t) && Enabled(t, e) && !Asks(e) && Step(t, e) == u && SameModes(t, u)
    requires Misled(u, x)
    ensures Misleads(t, [e], x)
  {
    InvStep(t, e);
    assert [e][1..] == [];
  }

  lemma GrantedModes<D>(t: Sys<D>, w: D)
    requires w in t.clients
    ensures SameModes(t, CallOver(t, w))
  {}

  lemma YieldModes<D>(t: Sys<D>, w: D)
    requires Inv(t) && w in t.clients && w in t.arb.saved
    ensures SameModes(t, YieldBegun(t, w, true))
  {}

  lemma GrantStep<D>(t: Sys<D>, w: D)
    requires Inv(t) && Enabled(t, Granted(w))
    ensures Step(t, Granted(w)) == CallOver(t, w)
  {}

  lemma GrantMisleads<D(!new)>(t: Sys<D>, w: D, es: seq<Event<D>>, x: D)
    requires Inv(t) && Enabled(t, Granted(w)) && Misleads(CallOver(t, w), es, x)
    ensures Misleads(t, [Granted(w)] + es, x)
  {
    GrantedModes(t, w);
    GrantStep(t, w);
    NextMisleads(t, Granted(w), CallOver(t, w), es, x);
  }

  lemma YieldStep<D>(t: Sys<D>, w: D)
    requires Inv(t) && Enabled(t, Yield(w, true)) && w in t.arb.saved
    ensures Step(t, Yield(w, true)) == YieldBegun(t, w, true)
  {}

  lemma YieldMisleads<D(!new)>(t: Sys<D>, w: D, es: seq<Event<D>>, x: D)
    requires Inv(t) && Enabled(t, Yield(w, true)) && w in t.arb.saved
    requires Misleads(YieldBegun(t, w, true), es, x)
    ensures Misleads(t, [Yield(w, true)] + es, x)
  {
    YieldModes(t, w);
    YieldStep(t, w);
    NextMisleads(t, Yield(w, true), YieldBegun(t, w, true), es, x);
  }

  lemma ReleaseMisleads<D(!new)>(t: Sys<D>, w: D, es: seq<Event<D>>, x: D)
    requires Inv(t) && Enabled(t, Release(w)) && w in t.arb.saved
    requires SameModes(t, ClientReleased(t, w)) && Misleads(ClientReleased(t, w), es, x)
    ensures Misleads(t, [Release(w)] + es, x)
  {
    NextMisleads(t, Release(w), ClientReleased(t, w), es, x);
  }

  // From v on, w's call ends and it yields.
  lemma AgainMisleads<D(!new)>(v: Sys<D>, w: D, f: D, es: seq<Event<D>>, x: D) returns (fs: seq<Event<D>>)
    requires Inv(v) && v.arb.owner == Some(w) && v.arb.queue == [f]
    requires w in v.clients && v.clients[w].call != Idle && Inv(CallOver(v, w)) && w in v.arb.saved
    requires Misleads(Again(v, w), es, x)
    ensures Misleads(v, fs, x)
  {
    Yields(v, w, f);
    YieldMisleads(CallOver(v, w), w, es, x);
    fs := [Yield(w, true)] + es;
    GrantMisleads(v, w, fs, x);
    fs := [Granted(w)] + fs;
  }

  lemma BackMisleads<D(!new)>(v: Sys<D>, d: D, f: D, k: bv32) returns (es: seq<Event<D>>)
    requires Back(v, d, f, k)
    ensures Misleads(v, es, d)
  {
    Yields(v, d, f);
    FirstYield(v, d, f, k);
    var u := Again(v, d);
    Yields(u, f, d);
    SecondYield(u, d, f, k);
    var t := Again(u, f);
    Returns(t, d, k);
    LastMisleads(t, Granted(d), CallOver(t, d), d);
    es := AgainMisleads(u, f, d, [Granted(d)], d);
    es := AgainMisleads(v, d, f, es, d);
  }

  lemma SameThrough<D>(t: Sys<D>, u: Sys<D>, v: Sys<D>)
    requires SameModes(t, v) && SameModes(t, u)
    ensures SameModes(u, v)
  {}

  // From t on, w's call ends and it releases the port.
  lemma TurnMisleads<D(!new)>(t: Sys<D>, w: D, v: Sys<D>, k: bv32, es: seq<Event<D>>, x: D)
      returns (fs: seq<Event<D>>)
    requires Inv(t) && Enabled(t, Granted(w)) && Inv(CallOver(t, w))
    requires Enabled(CallOver(t, w), Release(w)) && w in t.arb.saved
    requires v == ClientReleased(CallOver(t, w), w) && Passed(t, v, w, k) && Misleads(v, es, x)
    ensures Misleads(t, fs, x)
  {
    GrantedModes(t, w);
    SameThrough(t, CallOver(t, w), v);
    ReleaseMisleads(CallOver(t, w), w, es, x);
    fs := [Release(w)] + es;
    GrantMisleads(t, w, fs, x);
    fs := [Granted(w)] + fs;
  }

  // Everybody before d takes its turn, until somebody is misled.
  lemma {:induction false} LeakedMisleads<D(!new)>(t: Sys<D>, d: D, f: D, k: bv32) returns (es: seq<Event<D>>, x: D)
    requires Leaked(t, d, f, k)
    ensures Misleads(t, es, x) && x != f
    decreases |t.arb.queue|
  {
    var w := t.arb.owner.value;
    if !t.clients[w].printer && t.clients[w].call == Yielding {
      YielderMisled(t, d, f, k);
      x, es := w, [Granted(w)];
      LastMisleads(t, Granted(w), CallOver(t, w), w);
    } else {
      TurnTaken(t, d, f, k);
      var v := ClientReleased(CallOver(t, w), w);
      if |t.arb.queue| > 2 {
        StillLeaked(t, v, d, f, k);
        es, x := LeakedMisleads(v, d, f, k);
      } else {
        NowBack(t, v, d, f, k);
        x := d;
        es := BackMisleads(v, d, f, k);
      }
      es := TurnMisleads(t, w, v, k, es, x);
    }
  }

  // ---- After a leaking yield ----

  function Crowded<D>(s: Sys<D>, f: D): Sys<D>
    requires f !in s.clients
  {
    ClaimBegun(Opened(s, f, false), f, false)
  }

  // d yields out of compatibility mode.
  lemma LeakYields<D>(s: Sys<D>, d: D)
    requires Inv(s) && ModesOk(s) && Enabled(s, Yield(d, true))
    requires LeaksMode(s, Yield(d, true))
    ensures Inv(YieldBegun(s, d, true)) && d in s.arb.saved && !s.clients[d].printer
    ensures var u, k := YieldBegun(s, d, true), s.info.mode;
            && SameModes(s, u) && u.info.mode == k && k != COMPAT && IsYielding(u, d, k) && OthersCompat(u, d)
            && u.arb.owner == Some(s.arb.queue[0]) && u.arb.queue == s.arb.queue[1..] + [d]
  {
    YieldBegunInv(s, d, true);
    assert ClientOk(s.arb, d, s.clients[d]);
  }

  // A file f is opened and claims.
  lemma CrowdLeaks<D>(u: Sys<D>, d: D, f: D, k: bv32)
    requires Inv(u) && f !in u.clients && u.info.mode == k && k != COMPAT && IsYielding(u, d, k)
    requires OthersCompat(u, d) && u.arb.owner.Some? && u.arb.owner != Some(d)
    requires u.arb.queue != [] && u.arb.queue[|u.arb.queue| - 1] == d && u.clients[u.arb.owner.value].call != Idle
    ensures Leaked(Crowded(u, f), d, f, k)
  {
    OpenedInv(u, f, false);
    ClaimBegunInv(Opened(u, f, false), f, false);
  }

  lemma {:induction false} NobodyAsks<D>(k: Option<bv32>, es: seq<Event<D>>, x: D)
    requires forall e <- es :: !Asks(e)
    ensures LastAsked(k, es, x) == k
    decreases |es|
  {
    if es == [] {
    } else {
      assert es[0] in es;
      NobodyAsks(k, es[1..], x);
    }
  }

  // The file x is told a mode in s that is not k.
  ghost predicate ToldOther<D>(s: Sys<D>, x: D, k: Option<bv32>) {
    && x in s.clients && !s.clients[x].printer && s.clients[x].call == Idle
    && Some(ModeOf(ViewOf(s, x))) != k
  }

  // After es, which f's open and claim begin, x is told another mode than in s.
  lemma CrowdMisleads<D(!new)>(s: Sys<D>, f: D, es: seq<Event<D>>, x: D) returns (fs: seq<Event<D>>)
    requires Inv(s) && f !in s.clients && Inv(Opened(s, f, false))
    requires Inv(Crowded(s, f)) && Misleads(Crowded(s, f), es, x) && x != f
    ensures EnabledRun(s, fs) && ToldOther(Run(s, fs), x, OwnMode(s, x))
    ensures LastAsked(OwnMode(s, x), fs, x) == OwnMode(s, x)
  {
    var t := Run(Crowded(s, f), es);
    NobodyAsks(OwnMode(s, x), es, x);
    Cons(Opened(s, f, false), Claim(f, false), es, t);
    fs := [Claim(f, false)] + es;
    AskedCons(OwnMode(s, x), Claim(f, false), es, x);
    Cons(s, Open(f, false), fs, t);
    AskedCons(OwnMode(s, x), Open(f, false), fs, x);
    fs := [Open(f, false)] + fs;
  }

  lemma AskedCons<D>(k: Option<bv32>, e: Event<D>, es: seq<Event<D>>, x: D)
    ensures LastAsked(k, [e] + es, x) == LastAsked(Asked(k, e, x), es, x)
  {
    assert ([e] + es)[1..] == es;
  }

  // d has yielded with the port in its mode k.
  lemma YieldedMisleads<D(!new)>(u: Sys<D>, d: D, f: D, k: bv32) returns (es: seq<Event<D>>, x: D)
    requires Inv(u) && f !in u.clients && u.info.mode == k && k != COMPAT && IsYielding(u, d, k)
    requires OthersCompat(u, d) && u.arb.owner.Some? && u.arb.owner != Some(d)
    requires u.arb.queue != [] && u.arb.queue[|u.arb.queue| - 1] == d && u.clients[u.arb.owner.value].call != Idle
    ensures EnabledRun(u, es) && ToldOther(Run(u, es), x, OwnMode(u, x))
    ensures LastAsked(OwnMode(u, x), es, x) == OwnMode(u, x)
  {
    CrowdLeaks(u, d, f, k);
    es, x := LeakedMisleads(Crowded(u, f), d, f, k);
    OpenedInv(u, f, false);
    es := CrowdMisleads(u, f, es, x);
  }

  lemma YieldKeepsAsked<D(!new)>(s: Sys<D>, d: D, es: seq<Event<D>>, x: D, k: Option<bv32>)
    requires Inv(s) && Enabled(s, Yield(d, true)) && d in s.arb.saved
    requires Inv(YieldBegun(s, d, true)) && EnabledRun(YieldBegun(s, d, true), es)
    requires ToldOther(Run(YieldBegun(s, d, true), es), x, k) && LastAsked(k, es, x) == k
    ensures var fs := [Yield(d, true)] + es;
            EnabledRun(s, fs) && ToldOther(Run(s, fs), x, LastAsked(k, fs, x))
  {
    YieldStep(s, d);
    Cons(s, Yield(d, true), es, Run(YieldBegun(s, d, true), es));
    AskedCons(k, Yield(d, true), es, x);
  }

  // After every yield that leaves the port in a file's mode, there is a run, which
  // begins with one more file being opened, that ends with some file being told
  // another mode than it asked for last.
  lemma LeakMisleads<D(!new)>(s: Sys<D>, d: D, f: D) returns (es: seq<Event<D>>, x: D)
    requires Inv(s) && ModesOk(s) && Enabled(s, Yield(d, true))
    requires LeaksMode(s, Yield(d, true)) && f !in s.clients
    ensures EnabledRun(s, [Yield(d, true)] + es)
    ensures var fs := [Yield(d, true)] + es;
            ToldOther(Run(s, fs), x, LastAsked(OwnMode(s, x), fs, x))
  {
    var u := YieldBegun(s, d, true);
    LeakYields(s, d);
    assert ClientOk(u.arb, u.arb.owner.value, u.clients[u.arb.owner.value]);
    es, x := YieldedMisleads(u, d, f, s.info.mode);
    YieldKeepsAsked(s, d, es, x, OwnMode(s, x));
  }

  // Over the runs of PrivateMode, whose conclusion this denies: as soon as one such
  // yield is allowed, a file can be told a mode that it did not ask for last.
  lemma PrivacyLost<D(!new)>(es: seq<Event<D>>, d: D, f: D) returns (fs: seq<Event<D>>, x: D)
    requires EnabledRun(Start(), es) && LeakFree(Start(), es)
    requires var s := Run(Start(), es);
             && Enabled(s, Yield(d, true)) && f !in s.clients
             && LeaksMode(s, Yield(d, true))
    ensures fs != [] && fs[0] == Yield(d, true)
    ensures var s := Run(Start(), es);
            && EnabledRun(s, fs)
            && ToldOther(Run(s, fs), x, LastAsked(LastAsked(None, es, x), fs, x))
  {
    var s := Run(Start(), es);
    ModesRun(Start(), es);
    fs, x := LeakMisleads(s, d, f);
    fs := [Yield(d, true)] + fs;
    OwnModeRun(Start(), es, x);
  }
}
