// The transmit ring buffer (driver/snx_serial.c, driver/snx_common.h): a 4096-byte
// page with head and tail indices, one slot always left empty.

module XmitRings {
  import opened SerialModel

  const SIZE: nat := 4096

  type Index = n: nat | n < SIZE

  // The kernel's CIRC_CNT, CIRC_SPACE and CIRC_SPACE_TO_END for a power-of-two size.
  function Count(head: Index, tail: Index): nat {
    (head - tail) % SIZE
  }

  function Space(head: Index, tail: Index): nat {
    (tail - head - 1) % SIZE
  }

  function SpaceToEnd(head: Index, tail: Index): nat {
    Min(Space(head, tail), SIZE - head)
  }

  lemma CountAndSpace(head: Index, tail: Index)
    ensures Count(head, tail) + Space(head, tail) == 4095
    ensures head == tail <==> Count(head, tail) == 0
  {}

  // The slot of the i-th pending byte.
  function Slot(tail: Index, i: nat): Index
    requires i < SIZE
  {
    if tail + i < SIZE then tail + i else tail + i - SIZE
  }

  // The free slots up to the end of the page follow the pending bytes.
  lemma FreeSlot(head: Index, tail: Index, i: nat)
    requires i < SpaceToEnd(head, tail)
    ensures Count(head, tail) + i < SIZE && Slot(tail, Count(head, tail) + i) == head + i
  {}

  // A pending byte is not among them.
  lemma PendingSlot(head: Index, tail: Index, k: nat, c: nat)
    requires k < Count(head, tail) && c <= SpaceToEnd(head, tail)
    ensures !(head <= Slot(tail, k) < head + c)
  {}

  lemma AfterCopy(head: Index, tail: Index, c: nat)
    requires c <= SpaceToEnd(head, tail)
    ensures Count((head + c) % SIZE, tail) == Count(head, tail) + c
    ensures Count(head, tail) + c + Space((head + c) % SIZE, tail) == CAPACITY
  {}

  class XmitRing {
    const buf: array<bv8>
    var head: Index
    var tail: Index
    ghost var queue: seq<bv8>     // the pending bytes, oldest first

    ghost predicate Valid()
      reads this, buf
    {
      && buf.Length == SIZE
      && |queue| == Count(head, tail)
      && forall i :: 0 <= i < |queue| ==> buf[Slot(tail, i)] == queue[i]
    }

    constructor ()
      ensures Valid() && fresh(buf) && queue == []
    {
      buf := new bv8[SIZE];
      head, tail, queue := 0, 0, [];
    }

    // __snx_ser_put_char: a byte that does not fit is dropped.
    method PutChar(c: bv8)
      requires Valid()
      modifies `head, `queue, buf
      ensures Valid() && queue == old(queue) + (if |old(queue)| < 4095 then [c] else [])
    {
      CountAndSpace(head, tail);
      if Space(head, tail) != 0 {
        assert head == Slot(tail, |queue|);
        buf[head] := c;
        head := (head + 1) % SIZE;
        queue := queue + [c];
      }
    }

    // The copying loop of snx_ser_write: fill up to the end of the page, then from
    // its beginning, until the bytes or the free slots run out.
    method Write(bytes: seq<bv8>) returns (ret: nat)
      requires Valid()
      modifies `head, `queue, buf
      ensures Valid() && ret == Min(|bytes|, 4095 - |old(queue)|)
      ensures queue == old(queue) + bytes[..ret]
    {
      ret := 0;
      CountAndSpace(head, tail);
      while true
        invariant Valid() && ret <= |bytes|
        invariant |queue| + Space(head, tail) == CAPACITY
        invariant queue == old(queue) + bytes[..ret]
        decreases |bytes| - ret
      {
        var c := SpaceToEnd(head, tail);
        if |bytes| - ret < c {
          c := |bytes| - ret;
        }
        if c == 0 {
          break;
        }
        Copy(bytes, ret, c);
        ret := ret + c;
      }
    }

    // memcpy of c bytes to the head, and its advance.
    method Copy(bytes: seq<bv8>, from: nat, c: nat)
      requires Valid() && 0 < c <= SpaceToEnd(head, tail) && from + c <= |bytes|
      modifies `head, `queue, buf
      ensures Valid() && |queue| + Space(head, tail) == CAPACITY
      ensures queue == old(queue) + bytes[from..from + c]
    {
      ghost var h, q := head, queue;
      forall i | 0 <= i < c {
        buf[head + i] := bytes[from + i];
      }
      head := (head + c) % SIZE;
      queue := queue + bytes[from..from + c];
      AfterCopy(h, tail, c);
      forall k | 0 <= k < |queue|
        ensures buf[Slot(tail, k)] == queue[k]
      {
        if k < |q| {
          PendingSlot(h, tail, k, c);
          assert buf[Slot(tail, k)] == old(buf[Slot(tail, k)]);
        } else {
          FreeSlot(h, tail, k - |q|);
          assert buf[h + (k - |q|)] == bytes[from + (k - |q|)];
        }
      }
    }

    method Pop() returns (c: bv8)
      requires Valid() && queue != []
      modifies `tail, `queue
      ensures Valid() && c == old(queue)[0] && queue == old(queue)[1..]
    {
      c := buf[tail];
      tail := (tail + 1) % SIZE;
      queue := queue[1..];
    }

    method Clear()
      requires Valid()
      modifies `head, `tail, `queue
      ensures Valid() && queue == []
    {
      head, tail, queue := 0, 0, [];
    }

    method IsEmpty() returns (r: bool)
      requires Valid()
      ensures r <==> queue == []
    {
      CountAndSpace(head, tail);
      r := head == tail;
    }

    // snx_ser_chars_in_buffer and snx_ser_write_room
    method Pending() returns (n: nat)
      requires Valid()
      ensures n == |queue|
    {
      n := Count(head, tail);
    }

    method Room() returns (n: nat)
      requires Valid()
      ensures n == 4095 - |queue|
    {
      CountAndSpace(head, tail);
      n := Space(head, tail);
    }
  }
}
