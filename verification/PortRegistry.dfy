// The global lists of ports and port drivers (driver/snx_share.c): how ports are
// numbered, and which drivers are attached to which ports.

module PortRegistry {
  import opened Options
  import opened Arbiter

  // A port has an identity and the number it was given.
  datatype Port = Port(id: int, number: int)

  datatype Call = Attach(d: int, p: Port) | Detach(d: int, p: Port)

  // ---- What drivers have seen ----

  // Attaches minus detaches
  function Net(calls: seq<Call>, d: int, p: Port): int {
    if calls == [] then 0
    else
      var c := calls[|calls| - 1];
      Net(calls[..|calls| - 1], d, p) + if c.d != d || c.p != p then 0 else if c.Attach? then 1 else -1
  }

  ghost predicate Balanced(calls: seq<Call>, attached: set<(int, Port)>) {
    forall d, p :: Net(calls, d, p) == if (d, p) in attached then 1 else 0
  }

  // At no moment was a driver attached twice or detached from what it had not.
  ghost predicate Alternates(calls: seq<Call>) {
    forall k, d, p :: 0 <= k <= |calls| ==> 0 <= Net(calls[..k], d, p) <= 1
  }

  ghost predicate AfterCall(attached: set<(int, Port)>, c: Call, next: set<(int, Port)>) {
    if c.Attach? then (c.d, c.p) !in attached && next == attached + {(c.d, c.p)}
    else (c.d, c.p) in attached && next == attached - {(c.d, c.p)}
  }

  lemma OneCall(calls: seq<Call>, attached: set<(int, Port)>, c: Call, next: set<(int, Port)>)
    requires Balanced(calls, attached) && Alternates(calls) && AfterCall(attached, c, next)
    ensures Balanced(calls + [c], next) && Alternates(calls + [c])
  {
    var more := calls + [c];
    assert more[..|calls|] == calls;
    forall d, p ensures Net(more, d, p) == if (d, p) in next then 1 else 0 {
      assert Net(calls, d, p) == if (d, p) in attached then 1 else 0;
    }
    forall k, d, p | 0 <= k <= |more| ensures 0 <= Net(more[..k], d, p) <= 1 {
      if k <= |calls| {
        assert more[..k] == calls[..k];
      } else {
        assert more[..k] == more;
      }
    }
  }

  // ---- Numbering ----

  ghost predicate Increasing(all: seq<Port>) {
    (forall i :: 0 <= i < |all| ==> all[i].number >= 2) &&
    (forall i, j :: 0 <= i < j < |all| ==> all[i].number < all[j].number)
  }

  ghost predicate Used(all: seq<Port>, n: int) {
    exists i :: 0 <= i < |all| && all[i].number == n
  }

  ghost predicate LeastUnused(all: seq<Port>, n: int) {
    n >= 2 && !Used(all, n) && (forall m :: 2 <= m < n ==> Used(all, m))
  }

  class Registry {
    var all: seq<Port>        // snx_all_ports, registered and not yet freed
    var ports: seq<Port>      // snx_portlist, announced and not yet removed
    var refs: map<Port, nat>  // reference counts of the former
    var drivers: seq<int>     // snx_drivers
    var calls: seq<Call>      // what the drivers' callbacks were told
    ghost var attached: set<(int, Port)>

    ghost predicate Known()
      reads `all, `ports, `drivers, `refs
    {
      && Increasing(all) && NoDup(ports) && NoDup(drivers) && (forall p <- ports :: p in all)
      && (forall p <- all :: p in refs) && (forall p <- refs :: p in all && refs[p] > 0)
    }

    ghost predicate Told()
      reads `calls, `attached
    {
      Balanced(calls, attached) && Alternates(calls)
    }

    // Every driver present is attached to every port present, and nothing else is.
    ghost predicate Valid()
      reads this
    {
      Known() && Told() && (forall d, p :: (d, p) in attached <==> d in drivers && p in ports)
    }

    constructor ()
      ensures Valid() && all == ports == [] && drivers == [] && calls == []
    {
      all, ports, refs, drivers, calls, attached := [], [], map[], [], [], {};
    }

    // Exactly-once attachment
    lemma AttachedOnce(d: int, p: Port)
      requires Valid()
      ensures Net(calls, d, p) == if d in drivers && p in ports then 1 else 0
      ensures forall k :: 0 <= k <= |calls| ==> 0 <= Net(calls[..k], d, p) <= 1
    {}

    // The attach and detach callbacks of a driver
    method Tell(c: Call, ghost next: set<(int, Port)>)
      requires Told() && AfterCall(attached, c, next)
      modifies this`calls, this`attached
      ensures Told() && attached == next && calls == old(calls) + [c]
    {
      OneCall(calls, attached, c, next);
      calls := calls + [c];
      attached := next;
    }

    // ---- Drivers ----

    method RegisterDriver(drv: int)
      requires Valid() && drv !in drivers
      modifies this`drivers, this`calls, this`attached
      ensures Valid() && drivers == [drv] + old(drivers)
    {
      for k := 0 to |ports|
        modifies this`calls, this`attached
        invariant Told()
        invariant forall d, p :: (d, p) in attached <==> p in ports && (d in drivers || (p in ports[..k] && d == drv))
      {
        assert ports[k] !in ports[..k];
        Tell(Attach(drv, ports[k]), attached + {(drv, ports[k])});
        assert ports[..k + 1] == ports[..k] + [ports[k]];
      }
      assert ports[..|ports|] == ports;
      drivers := [drv] + drivers;
    }

    method UnregisterDriver(drv: int)
      requires Valid() && drv in drivers
      modifies this`drivers, this`calls, this`attached
      ensures Valid() && drivers == Without(old(drivers), drv)
    {
      WithoutFacts(drivers, drv);
      ghost var before := drivers;
      drivers := Without(drivers, drv);
      for k := 0 to |ports|
        modifies this`calls, this`attached
        invariant Told()
        invariant forall d, p :: (d, p) in attached <==> p in ports && d in before && !(p in ports[..k] && d == drv)
      {
        assert ports[k] !in ports[..k];
        Tell(Detach(drv, ports[k]), attached - {(drv, ports[k])});
        assert ports[..k + 1] == ports[..k] + [ports[k]];
      }
      assert ports[..|ports|] == ports;
    }

    // ---- Ports ----

    // The new port gets the least number from 2 on that no port has, and the list
    // stays in order.
    method RegisterPort(id: int) returns (tmp: Port)
      requires Valid()
      modifies this`all, this`refs
      ensures Valid() && tmp.id == id && LeastUnused(old(all), tmp.number) && refs == old(refs)[tmp := 1]
      ensures exists l :: 0 <= l <= |old(all)| && all == old(all)[..l] + [tmp] + old(all)[l..]
    {
      var l, num := 0, 2;
      while l < |all| && all[l].number == num
        invariant 0 <= l <= |all| && num == l + 2
        invariant forall i :: 0 <= i < l ==> all[i].number == i + 2
      {
        l, num := l + 1, num + 1;
      }
      tmp := Port(id, num);
      Gap(all, l, tmp);
      Inserted(all, l, tmp);
      all := all[..l] + [tmp] + all[l..];
      refs := refs[tmp := 1];
    }

    // The last put frees the port, which then leaves the full list; an announced port
    // has a reference that is not put before it is removed.
    method PutPort(p: Port)
      requires Valid() && p in all && (p in ports ==> refs[p] > 1)
      modifies this`all, this`refs
      ensures Valid()
      ensures if old(refs)[p] > 1 then all == old(all) && refs == old(refs)[p := old(refs)[p] - 1]
              else all == Without(old(all), p) && refs == old(refs) - {p}
    {
      var count := refs[p] - 1;
      if count == 0 {
        FreePort(p);
      } else {
        refs := refs[p := count];
      }
    }

    method FreePort(p: Port)
      requires Valid() && p in all && p !in ports
      modifies this`all, this`refs
      ensures Valid() && all == Without(old(all), p) && refs == old(refs) - {p}
    {
      IncreasingNoDup(all);
      WithoutFacts(all, p);
      WithoutRemoves(all, p);
      StillIncreasing(all, p, IndexOf(all, p), Without(all, p));
      all := Without(all, p);
      refs := refs - {p};
    }

    method AnnouncePort(port: Port)
      requires Valid() && port in all && port !in ports
      modifies this`ports, this`calls, this`attached
      ensures Valid() && ports == old(ports) + [port]
    {
      ghost var before := ports;
      ports := ports + [port];
      for k := 0 to |drivers|
        modifies this`calls, this`attached
        invariant Told()
        invariant forall d, p :: (d, p) in attached <==> d in drivers && (p in before || (d in drivers[..k] && p == port))
      {
        assert drivers[k] !in drivers[..k];
        Tell(Attach(drivers[k], port), attached + {(drivers[k], port)});
        assert drivers[..k + 1] == drivers[..k] + [drivers[k]];
      }
      assert drivers[..|drivers|] == drivers;
    }

    method RemovePort(port: Port)
      requires Valid() && port in ports
      modifies this`ports, this`calls, this`attached
      ensures Valid() && ports == Without(old(ports), port)
    {
      WithoutFacts(ports, port);
      for k := 0 to |drivers|
        modifies this`calls, this`attached
        invariant Told()
        invariant forall d, p :: (d, p) in attached <==> d in drivers && p in ports && !(d in drivers[..k] && p == port)
      {
        assert drivers[k] !in drivers[..k];
        Tell(Detach(drivers[k], port), attached - {(drivers[k], port)});
        assert drivers[..k + 1] == drivers[..k] + [drivers[k]];
      }
      assert drivers[..|drivers|] == drivers;
      ports := Without(ports, port);
    }

    // Numbers being unused when given, at most one announced port has a number; the
    // look-up finds it and takes a reference.
    method FindNumber(number: int) returns (result: Option<Port>)
      requires Valid()
      modifies this`refs
      ensures result.Some? ==> result.value in ports
      ensures Valid() && refs == if result == None then old(refs) else old(refs)[result.value := old(refs)[result.value] + 1]
      ensures forall p <- ports :: p.number == number <==> result == Some(p)
    {
      for k := 0 to |ports|
        invariant refs == old(refs) && forall p <- ports[..k] :: p.number != number
      {
        if ports[k].number == number {
          NumbersAreUnique(all, ports[k]);
          refs := refs[ports[k] := refs[ports[k]] + 1];
          return Some(ports[k]);
        }
        assert ports[..k + 1] == ports[..k] + [ports[k]];
      }
      assert ports[..|ports|] == ports;
      return None;
    }
  }

  // The first place where the numbers skip one
  lemma Gap(all: seq<Port>, l: nat, tmp: Port)
    requires Increasing(all) && l <= |all| && (l < |all| ==> all[l].number != l + 2)
    requires tmp.number == l + 2 && forall i :: 0 <= i < l ==> all[i].number == i + 2
    ensures LeastUnused(all, l + 2)
    ensures Increasing(all[..l] + [tmp] + all[l..])
  {
    if l < |all| {
      if l > 0 {
        assert all[l - 1].number < all[l].number;
      }
      assert forall i :: l <= i < |all| ==> all[i].number >= all[l].number > l + 2;
    }
    forall m | 2 <= m < l + 2 ensures Used(all, m) {
      assert all[m - 2].number == m;
    }
  }

  lemma Inserted(all: seq<Port>, l: nat, tmp: Port)
    requires l <= |all|
    ensures forall p :: p in all[..l] + [tmp] + all[l..] <==> p == tmp || p in all
  {
    assert all == all[..l] + all[l..];
  }

  lemma IncreasingNoDup(all: seq<Port>)
    requires Increasing(all)
    ensures NoDup(all)
  {}

  lemma StillIncreasing(all: seq<Port>, p: Port, k: nat, rest: seq<Port>)
    requires Increasing(all) && Removed(all, p, k, rest)
    ensures Increasing(rest)
  {}

  lemma NumbersAreUnique(all: seq<Port>, p: Port)
    requires Increasing(all) && p in all
    ensures forall q <- all :: q.number == p.number <==> q == p
  {}
}
