// The links of the wait queue (driver/snx_share.c): head, tail, and each device's
// waitnext and waitprev, as plain values.

module WaitLinks {
  import opened Options
  import opened Arbiter

  datatype Links<D(==)> = Links(head: Option<D>, tail: Option<D>, next: map<D, Option<D>>, prev: map<D, Option<D>>)

  predicate In<D(==)>(o: Option<D>, devs: set<D>) {
    o.Some? ==> o.value in devs
  }

  // Every pointer points to a device.
  predicate KnownLinks<D>(l: Links<D>, devs: set<D>) {
    && In(l.head, devs) && In(l.tail, devs) && l.next.Keys == devs && l.prev.Keys == devs
    && (forall d <- devs :: In(l.next[d], devs))
    && (forall d <- devs :: In(l.prev[d], devs))
  }

  function Empty<D>(devs: set<D>): (l: Links<D>)
    ensures KnownLinks(l, devs)
  {
    Links(None, None, map d | d in devs :: None, map d | d in devs :: None)
  }

  function Set<D(==)>(m: map<D, Option<D>>, p: Option<D>, v: Option<D>): map<D, Option<D>> {
    if p.Some? then m[p.value := v] else m
  }

  // w is put behind the tail.
  function Append<D>(l: Links<D>, w: D): Links<D> {
    Links(if l.tail.Some? then l.head else Some(w), Some(w),
          Set(l.next[w := None], l.tail, Some(w)), l.prev[w := l.tail])
  }

  // The neighbours of w are linked to each other.
  function Splice<D>(l: Links<D>, w: D): Links<D>
    requires w in l.next && w in l.prev
  {
    var n, p := l.next[w], l.prev[w];
    Links(if p.Some? then l.head else n, if n.Some? then l.tail else p,
          Set(l.next, p, n)[w := None], Set(l.prev, n, p)[w := None])
  }

  lemma AppendKnown<D>(l: Links<D>, w: D, devs: set<D>)
    requires KnownLinks(l, devs) && w in devs
    ensures KnownLinks(Append(l, w), devs)
  {}

  lemma SpliceKnown<D>(l: Links<D>, w: D, devs: set<D>)
    requires KnownLinks(l, devs) && w in devs
    ensures KnownLinks(Splice(l, w), devs)
  {}

  // ---- What the links say ----

  function At<D>(q: seq<D>, i: int): Option<D> {
    if 0 <= i < |q| then Some(q[i]) else None
  }

  // The links are those of the doubly linked list q, and nobody else has any.
  ghost predicate Describes<D>(l: Links<D>, q: seq<D>) {
    && NoDup(q)
    && (forall d <- q :: d in l.next && d in l.prev)
    && l.head == At(q, 0) && l.tail == At(q, |q| - 1)
    && (forall i {:trigger l.next[q[i]]} :: 0 <= i < |q| ==> l.next[q[i]] == At(q, i + 1))
    && (forall i {:trigger l.prev[q[i]]} :: 0 <= i < |q| ==> l.prev[q[i]] == At(q, i - 1))
    && (forall d <- l.next :: d !in q ==> l.next[d] == None)
  }

  lemma AppendDescribes<D>(l: Links<D>, q: seq<D>, w: D)
    requires Describes(l, q) && w !in q
    ensures Describes(Append(l, w), q + [w])
  {
    var l', q' := Append(l, w), q + [w];
    forall i {:trigger l'.next[q'[i]]} | 0 <= i < |q'| ensures l'.next[q'[i]] == At(q', i + 1) {
      if i < |q| {
        assert q'[i] == q[i];
        assert l.next[q[i]] == At(q, i + 1);
      }
    }
    forall i {:trigger l'.prev[q'[i]]} | 0 <= i < |q'| ensures l'.prev[q'[i]] == At(q', i - 1) {
      if i < |q| {
        assert q'[i] == q[i];
        assert l.prev[q[i]] == At(q, i - 1);
      }
    }
  }

  lemma SpliceNext<D>(l: Links<D>, q: seq<D>, w: D, k: nat, q': seq<D>, i: nat)
    requires Describes(l, q) && Removed(q, w, k, q') && i < |q'|
    ensures q'[i] in Splice(l, w).next && Splice(l, w).next[q'[i]] == At(q', i + 1)
  {
    var j := if i < k then i else i + 1;
    assert l.next[q[j]] == At(q, j + 1) && l.next[q[k]] == At(q, k + 1) && l.prev[q[k]] == At(q, k - 1);
    assert q'[i] == q[j] && q[j] != w;
  }

  lemma SplicePrev<D>(l: Links<D>, q: seq<D>, w: D, k: nat, q': seq<D>, i: nat)
    requires Describes(l, q) && Removed(q, w, k, q') && i < |q'|
    ensures q'[i] in Splice(l, w).prev && Splice(l, w).prev[q'[i]] == At(q', i - 1)
  {
    var j := if i < k then i else i + 1;
    assert l.prev[q[j]] == At(q, j - 1) && l.next[q[k]] == At(q, k + 1) && l.prev[q[k]] == At(q, k - 1);
    assert q'[i] == q[j] && q[j] != w;
  }

  lemma SpliceEnds<D>(l: Links<D>, q: seq<D>, w: D, k: nat, q': seq<D>)
    requires Describes(l, q) && Removed(q, w, k, q')
    ensures Splice(l, w).head == At(q', 0) && Splice(l, w).tail == At(q', |q'| - 1)
  {
    assert l.next[q[k]] == At(q, k + 1) && l.prev[q[k]] == At(q, k - 1);
  }

  lemma SpliceOthers<D>(l: Links<D>, q: seq<D>, w: D, k: nat, q': seq<D>)
    requires Describes(l, q) && Removed(q, w, k, q')
    ensures forall d <- Splice(l, w).next :: d !in q' ==> Splice(l, w).next[d] == None
  {
    assert l.prev[q[k]] == At(q, k - 1);
    assert k > 0 ==> q[k - 1] != w && q[k - 1] in q';
  }

  // Taking w out anywhere leaves the list without w.
  lemma SpliceDescribes<D>(l: Links<D>, q: seq<D>, w: D)
    requires Describes(l, q) && w in q
    ensures Describes(Splice(l, w), Without(q, w))
  {
    var k, q' := IndexOf(q, w), Without(q, w);
    WithoutRemoves(q, w);
    SpliceEnds(l, q, w, k, q');
    SpliceOthers(l, q, w, k, q');
    forall i {:trigger Splice(l, w).next[q'[i]]} | 0 <= i < |q'| ensures Splice(l, w).next[q'[i]] == At(q', i + 1) {
      SpliceNext(l, q, w, k, q', i);
    }
    forall i {:trigger Splice(l, w).prev[q'[i]]} | 0 <= i < |q'| ensures Splice(l, w).prev[q'[i]] == At(q', i - 1) {
      SplicePrev(l, q, w, k, q', i);
    }
  }
}
