// The port arbiter (driver/snx_share.c) as an abstract machine.
//
// A port has at most one owner, a first-come-first-served queue of blocked
// devices, one live control register, and one saved control byte per registered
// device.  Here a release, with its hand-off, is a single step; module
// InterleavedArbiter splits it.  Class Parport refines this machine with the
// driver's linked lists.

module Arbiter {
  import opened Options
  import opened ControlRegister

  datatype Arb<D(==)> = Arb(owner: Option<D>, queue: seq<D>, ctr: bv8, saved: map<D, bv8>)

  datatype Event<D> =
    | Register(d: D, irq: bool)
    | Unregister(d: D)
    | TryClaim(d: D)
    | ClaimOrBlock(d: D)
    | Release(d: D)
    | Yield(d: D, expired: bool)
    | Control(d: D, mask: bv8, val: bv8)

  function IndexOf<D(==)>(q: seq<D>, d: D): (i: nat)
    requires d in q
    ensures i < |q| && q[i] == d
    ensures forall j :: 0 <= j < i ==> q[j] != d
  {
    if q[0] == d then 0 else 1 + IndexOf(q[1..], d)
  }

  // The queue with d taken out of it.
  function Without<D(==)>(q: seq<D>, d: D): seq<D> {
    if d in q then q[..IndexOf(q, d)] + q[IndexOf(q, d) + 1..] else q
  }

  // d becomes the owner of a port nobody owns: its saved control byte goes to the
  // register.
  function Grant<D>(s: Arb<D>, d: D): Arb<D>
    requires d in s.saved
  {
    s.(owner := Some(d), ctr := s.saved[d] & CTR_WRITABLE)
  }

  // sunix_parport_claim; mayBlock is bit 1 of the device's waiting word.
  function Claimed<D>(s: Arb<D>, d: D, mayBlock: bool): Arb<D>
    requires d in s.saved
  {
    if s.owner == Some(d) then s
    else if s.owner == None then Grant(s, d)
    else if mayBlock && d !in s.queue then s.(queue := s.queue + [d])
    else s
  }

  // sunix_parport_release: save, then hand the port to the head of the queue.
  function Released<D>(s: Arb<D>, d: D): Arb<D>
    requires d in s.saved && (s.queue != [] ==> s.queue[0] in s.saved)
  {
    if s.owner != Some(d) then s
    else
      var dropped := s.(owner := None, saved := s.saved[d := s.ctr]);
      if s.queue == [] then dropped else Grant(dropped.(queue := s.queue[1..]), s.queue[0])
  }

  // sunix_parport_yield_blocking
  function Yielded<D>(s: Arb<D>, d: D, expired: bool): Arb<D>
    requires d in s.saved && (s.queue != [] ==> s.queue[0] in s.saved)
  {
    if s.queue == [] || !expired then s else Claimed(Released(s, d), d, true)
  }

  function Registered<D>(s: Arb<D>, d: D, irq: bool): Arb<D> {
    s.(saved := s.saved[d := if irq then INITIAL_CTR | IRQ_ENABLE else INITIAL_CTR])
  }

  // sunix_parport_unregister_device: an owner is made to release first.
  function Unregistered<D>(s: Arb<D>, d: D): Arb<D>
    requires d in s.saved && (s.queue != [] ==> s.queue[0] in s.saved)
  {
    Forgotten(Released(s, d), d)
  }

  function Forgotten<D>(s: Arb<D>, d: D): Arb<D> {
    s.(queue := Without(s.queue, d), saved := s.saved - {d})
  }

  predicate NoDup<D(==)>(q: seq<D>) {
    forall i, j :: 0 <= i < j < |q| ==> q[i] != q[j]
  }

  predicate Inv<D>(s: Arb<D>) {
    && NoDup(s.queue)
    && (forall d <- s.queue :: d in s.saved)
    && (s.owner.Some? ==> s.owner.value in s.saved && s.owner.value !in s.queue)
    && (s.owner.None? ==> s.queue == [])
    && Writable(s.ctr)
  }

  // What a client may do: a blocked device's thread sleeps inside its claim, and
  // only the owner touches the control register.
  predicate Enabled<D>(s: Arb<D>, e: Event<D>) {
    match e
    case Register(d, _) => d !in s.saved
    case Unregister(d) => d in s.saved
    case TryClaim(d) => d in s.saved && d !in s.queue
    case ClaimOrBlock(d) => d in s.saved && d !in s.queue
    case Release(d) => d in s.saved
    case Yield(d, _) => d in s.saved && d !in s.queue
    case Control(d, _, _) => s.owner == Some(d)
  }

  function Step<D>(s: Arb<D>, e: Event<D>): Arb<D>
    requires Inv(s) && Enabled(s, e)
  {
    match e
    case Register(d, irq) => Registered(s, d, irq)
    case Unregister(d) => Unregistered(s, d)
    case TryClaim(d) => Claimed(s, d, false)
    case ClaimOrBlock(d) => Claimed(s, d, true)
    case Release(d) => Released(s, d)
    case Yield(d, expired) => Yielded(s, d, expired)
    case Control(d, mask, val) => s.(ctr := Frob(s.ctr, mask, val))
  }

  // A new device starts with the lines at rest, and its interrupt bit if it has one.
  lemma RegisteredByte<D>(s: Arb<D>, d: D, irq: bool)
    requires Inv(s) && Enabled(s, Event.Register(d, irq))
    ensures Step(s, Event.Register(d, irq)) == s.(saved := s.saved[d := if irq then 0x1C else 0x0C])
  {}

  // Only the owner writes the register, and a write changes nothing else.
  lemma ControlWrites<D>(s: Arb<D>, d: D, mask: bv8, val: bv8)
    requires Inv(s) && Enabled(s, Event.Control(d, mask, val))
    ensures s.owner == Some(d)
    ensures var t := Step(s, Event.Control(d, mask, val));
            t == s.(ctr := t.ctr) && Frobbed(s.ctr, mask, val, t.ctr)
  {
    FrobBits(s.ctr, mask, val);
  }

  lemma ReleasedInv<D>(s: Arb<D>, d: D)
    requires Inv(s) && d in s.saved
    ensures Inv(Released(s, d))
    ensures Released(s, d).owner != Some(d) && Released(s, d).saved.Keys == s.saved.Keys
    ensures d !in s.queue ==> d !in Released(s, d).queue
  {}

  lemma WithoutFacts<D>(q: seq<D>, d: D)
    requires NoDup(q)
    ensures NoDup(Without(q, d)) && d !in Without(q, d)
    ensures forall x <- Without(q, d) :: x in q
    ensures forall x <- q :: x != d ==> x in Without(q, d)
  {}

  lemma WithoutHead<D>(q: seq<D>)
    requires q != []
    ensures Without(q, q[0]) == q[1..]
  {}

  // q' is q with its k-th element d taken out.
  ghost predicate Removed<D>(q: seq<D>, d: D, k: nat, q': seq<D>) {
    && k < |q| && q[k] == d && |q'| == |q| - 1
    && (forall i {:trigger q'[i]} :: 0 <= i < k ==> q'[i] == q[i])
    && (forall i {:trigger q'[i]} :: k <= i < |q'| ==> q'[i] == q[i + 1])
    && NoDup(q') && d !in q'
    && (forall x <- q' :: x in q)
    && (forall x <- q :: x != d ==> x in q')
  }

  lemma WithoutRemoves<D>(q: seq<D>, d: D)
    requires NoDup(q) && d in q
    ensures Removed(q, d, IndexOf(q, d), Without(q, d))
  {
    WithoutFacts(q, d);
    var k, rest := IndexOf(q, d), Without(q, d);
    assert rest == q[..k] + q[k + 1..];
    forall i {:trigger rest[i]} | k <= i < |rest| ensures rest[i] == q[i + 1] {
      assert rest[i] == q[k + 1..][i - k];
    }
    forall x <- q | x != d ensures x in rest {
      var j := IndexOf(q, x);
      assert x == rest[if j < k then j else j - 1];
    }
  }

  // An unregistration takes the port from d, and a waiter may get it.
  lemma UnregisteredInv<D>(s: Arb<D>, d: D)
    requires Inv(s) && d in s.saved
    ensures Inv(Unregistered(s, d)) && Unregistered(s, d).saved.Keys == s.saved.Keys - {d}
    ensures forall x <- s.saved :: x != d && s.owner == Some(x) ==> Unregistered(s, d).owner == Some(x)
    ensures forall x <- s.saved :: x != d && x in s.queue ==>
              Unregistered(s, d).owner == Some(x) || x in Unregistered(s, d).queue
    ensures forall x <- Unregistered(s, d).queue :: x in s.queue
    ensures forall x <- s.saved :: Unregistered(s, d).owner == Some(x) ==> s.owner == Some(x) || x in s.queue
  {
    ReleasedInv(s, d);
    WithoutFacts(Released(s, d).queue, d);
  }

  // Every step keeps the queue duplicate-free and the owner off it, never leaves
  // the port idle while somebody waits, and keeps the register inside its mask.
  lemma InvStep<D>(s: Arb<D>, e: Event<D>)
    requires Inv(s) && Enabled(s, e)
    ensures Inv(Step(s, e))
  {
    match e
    case Unregister(d) =>
      UnregisteredInv(s, d);
    case Yield(d, expired) =>
      ReleasedInv(s, d);
    case Release(d) =>
      ReleasedInv(s, d);
    case _ =>
  }

  // ---- Runs ----

  predicate EnabledRun<D>(s: Arb<D>, es: seq<Event<D>>)
    requires Inv(s)
    decreases |es|
  {
    es == [] || (Enabled(s, es[0]) && (InvStep(s, es[0]); EnabledRun(Step(s, es[0]), es[1..])))
  }

  function Run<D>(s: Arb<D>, es: seq<Event<D>>): (r: Arb<D>)
    requires Inv(s) && EnabledRun(s, es)
    ensures Inv(r)
    decreases |es|
  {
    if es == [] then s else
      InvStep(s, es[0]);
      Run(Step(s, es[0]), es[1..])
  }
}
