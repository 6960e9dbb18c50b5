// The shared port as the driver keeps it in memory (driver/snx_share.c,
// driver/snx_parallel.c, driver/snx_common.h): intrusive doubly linked lists of
// registered devices and of waiting devices, an owner pointer, a shadowed control
// register and a reference count.  Every operation refines one of module Arbiter.

module Parports {
  import opened Errno
  import opened Options
  import opened ControlRegister
  import opened Arbiter

  const WORD: nat := 0x1_0000_0000_0000_0000

  // jiffies and the like: unsigned long
  type Jiffies = n: nat | n < WORD

  // The unsigned difference of two clock readings.
  function Elapsed(now: Jiffies, then_: Jiffies): Jiffies {
    (now - then_) % WORD
  }

  // k ticks after then_, whether or not the clock has wrapped in between.
  lemma ElapsedTicks(now: Jiffies, then_: Jiffies, k: Jiffies)
    requires now == (then_ + k) % 0x1_0000_0000_0000_0000
    ensures Elapsed(now, then_) == k
  {
    if then_ + k >= WORD {
      assert (then_ + k) % WORD == then_ + k - WORD;
    }
  }

  lemma TicksElapsed(now: Jiffies, then_: Jiffies)
    ensures now == (then_ + Elapsed(now, then_)) % 0x1_0000_0000_0000_0000
  {
    if now < then_ {
      assert (now - then_) % WORD == now - then_ + WORD;
      assert (now + WORD) % WORD == now;
    }
  }

  class Pardevice {
    var next: Pardevice?
    var prev: Pardevice?
    var waitnext: Pardevice?
    var waitprev: Pardevice?
    var queued: bool            // bit 0 of waiting: on the wait queue
    var sleeps: bool            // bit 1 of waiting: its thread is prepared to sleep
    var ctr: bv8                // saved control byte
    var time: Jiffies
    var timeslice: Jiffies
    var preemptRequest: bool    // set by the printer driver's preempt callback
    const preempt: bool         // has a preempt callback (the printer driver)
    const exclusive: bool

    constructor (preempt: bool, exclusive: bool, irq: bool, timeslice: Jiffies)
      ensures next == null && prev == null && waitnext == null && waitprev == null && !queued && !sleeps
      ensures ctr == if irq then 0x1C else 0x0C
      ensures this.preempt == preempt && this.exclusive == exclusive && !preemptRequest && this.timeslice == timeslice
    {
      next, prev, waitnext, waitprev, queued, sleeps := null, null, null, null, false, false;
      ctr := if irq then INITIAL_CTR | IRQ_ENABLE else INITIAL_CTR;
      time, this.timeslice := 0, timeslice;
      this.preempt, this.exclusive, preemptRequest := preempt, exclusive, false;
    }
  }

  // The i-th list element, or null outside the list.
  ghost function At(q: seq<Pardevice>, i: int): Pardevice? {
    if 0 <= i < |q| then q[i] else null
  }

  ghost function First(q: seq<Pardevice>): Pardevice? {
    At(q, 0)
  }

  ghost function Last(q: seq<Pardevice>): Pardevice? {
    At(q, |q| - 1)
  }

  // What a chip answers to the probe: two reads of the control register and two of
  // the data register
  datatype Answers = Answers(ctr1: bv8, ctr2: bv8, data1: bv8, data2: bv8)

  // The control lines read back as 0x0C and 0x0E were written, or the data lines as
  // 0xAA and 0x55.
  predicate IsPort(a: Answers) {
    (a.ctr1 & 0x0F == 0x0C && a.ctr2 & 0x0F == 0x0E) || (a.data1 == 0xAA && a.data2 == 0x55)
  }

  class Parport {
    var devices: Pardevice?
    var cad: Pardevice?
    var waithead: Pardevice?
    var waittail: Pardevice?
    var ctr: bv8                // priv->ctr, the shadow
    var dcr: bv8                // last byte written to the control register
    var excl: bool              // PARPORT_FLAG_EXCL
    var refCount: int
    var freed: bool
    var usable: bool            // the probe found a parallel port

    ghost var Devs: seq<Pardevice>    // the device list, from its head
    ghost var Queue: seq<Pardevice>   // the wait queue, from its head
    ghost var holds: nat              // references held by drivers and look-ups

    ghost predicate DevLinks()
      reads `devices, `Devs, Devs`next, Devs`prev
    {
      && NoDup(Devs)
      && devices == First(Devs)
      && (forall i {:trigger Devs[i].prev} :: 0 <= i < |Devs| ==> Devs[i].prev == At(Devs, i - 1))
      && (forall i {:trigger Devs[i].next} :: 0 <= i < |Devs| ==> Devs[i].next == At(Devs, i + 1))
    }

    // q is the wait queue that the links describe.
    ghost predicate ProperQueue(q: seq<Pardevice>)
      reads `waithead, `waittail, q`waitnext, q`waitprev
    {
      && NoDup(q)
      && waithead == First(q)
      && waittail == Last(q)
      && (forall i {:trigger q[i].waitprev} :: 0 <= i < |q| ==> q[i].waitprev == At(q, i - 1))
      && (forall i {:trigger q[i].waitnext} :: 0 <= i < |q| ==> q[i].waitnext == At(q, i + 1))
    }

    ghost predicate QueueLinks()
      reads `waithead, `waittail, `Queue, Queue`waitnext, Queue`waitprev
    {
      ProperQueue(Queue)
    }

    // A device is on the queue exactly when bit 0 of its waiting word is set, and
    // then bit 1 is too; off the queue its links are null.
    ghost predicate WaitingBits()
      reads `Queue, `Devs, Devs`queued, Devs`sleeps, Devs`waitnext, Devs`waitprev
    {
      && (forall d <- Queue :: d in Devs)
      && (forall d <- Devs :: (d in Queue <==> d.queued) && (d.queued ==> d.sleeps)
                              && (!d.queued ==> d.waitnext == null && d.waitprev == null))
    }

    ghost predicate Lists()
      reads `devices, `Devs, Devs`next, Devs`prev
      reads `waithead, `waittail, `Queue, Queue`waitnext, Queue`waitprev
      reads Devs`queued, Devs`sleeps, Devs`waitnext, Devs`waitprev
    {
      DevLinks() && QueueLinks() && WaitingBits()
    }

    // The owner is a registered device that does not wait.
    ghost predicate OwnerKnown()
      reads `cad, `Devs, `Queue
    {
      cad != null ==> cad in Devs && cad !in Queue
    }

    // The shadow is the last byte written and stays inside ctr_writable.
    ghost predicate Registers()
      reads `ctr, `dcr
    {
      ctr == dcr && Writable(ctr)
    }

    // References are conserved, and an exclusive device is alone.
    ghost predicate Counts()
      reads `refCount, `holds, `Devs, `freed, `excl
    {
      && refCount == holds + |Devs| && (freed <==> refCount == 0)
      && (forall d <- Devs :: d.exclusive ==> excl)
      && (excl ==> |Devs| == 1 && Devs[0].exclusive)
    }

    ghost predicate Valid()
      reads this, Devs, Queue
    {
      Lists() && OwnerKnown() && Registers() && Counts()
    }

    // Between operations an ownerless port has no waiters.
    ghost predicate Settled()
      reads this
    {
      cad == null ==> Queue == []
    }

    ghost function Abs(): Arb<Pardevice>
      reads this, Devs
    {
      Arb(if cad == null then None else Some(cad as Pardevice), Queue, ctr, Saved())
    }

    ghost function Saved(): map<Pardevice, bv8>
      reads `Devs, Devs`ctr
    {
      map d | d in Devs :: d.ctr
    }

    lemma AbsInv()
      requires Valid() && Settled()
      ensures Inv(Abs())
    {}

    // ---- Probe ----

    // A port as sunix_parport_pc_probe_port leaves it: whatever the chip answers,
    // the shadow is the byte in the register.
    constructor (hasEcr: bool, answers: Answers)
      ensures Valid() && Settled() && holds == 1 && !freed && Devs == [] && !excl && (usable <==> IsPort(answers))
      ensures Abs() == Arb(None, [], INITIAL_CTR, map[])
    {
      devices, cad, waithead, waittail := null, null, null, null;
      ctr, dcr := INITIAL_CTR, *;
      excl, refCount, freed, usable := false, 1, false, false;
      Devs, Queue, holds := [], [], 1;
      new;
      ProbeChip(hasEcr, answers);
      assert Saved() == map[];
    }

    // The probe leaves the initial byte in the register and its shadow.
    method ProbeChip(hasEcr: bool, answers: Answers)
      requires Lists() && OwnerKnown() && Counts() && ctr == INITIAL_CTR
      modifies this`ctr, this`dcr, this`usable
      ensures Valid() && ctr == INITIAL_CTR && (usable <==> IsPort(answers))
    {
      if hasEcr {
        ProbeEcr();
      }
      ProbeSpp(answers);
      if usable {
        RawFrob(DIRECTION, 0);
      }
    }

    // sunix_parport_ECR_present, its effect on the control register.
    method ProbeEcr()
      modifies this`dcr
      ensures dcr == INITIAL_CTR
    {
      dcr := INITIAL_CTR;
      var ecr: bv8 := *;
      if ecr & 0x3 == INITIAL_CTR & 0x3 {
        dcr := INITIAL_CTR ^ 0x2;
      }
      dcr := INITIAL_CTR;
    }

    // sunix_parport_SPP_supported
    method ProbeSpp(answers: Answers)
      modifies this`dcr, this`usable
      ensures dcr == INITIAL_CTR && (usable <==> IsPort(answers))
    {
      dcr := INITIAL_CTR;
      if answers.ctr1 & LINES == INITIAL_CTR {
        dcr := 0x0E;
        dcr := INITIAL_CTR;
        if answers.ctr2 & LINES == 0x0E {
          usable := true;
          return;
        }
      }
      usable := answers.data1 == 0xAA && answers.data2 == 0x55;
    }

    // ---- Control register ----

    method RawFrob(mask: bv8, val: bv8)
      requires Valid()
      modifies this`ctr, this`dcr
      ensures Valid() && ctr == Frob(old(ctr), mask, val)
    {
      var c := (ctr & !mask) ^ val;
      c := c & CTR_WRITABLE;
      dcr := c;
      ctr := c;
    }

    method WriteControlByte(d: bv8)
      requires Valid()
      modifies this`ctr, this`dcr
      ensures Valid() && ctr == WriteControl(old(ctr), d)
    {
      if d & DIRECTION != 0 {
        RawFrob(DIRECTION, DIRECTION);
      }
      RawFrob(LINES, d & LINES);
    }

    method FrobControlByte(mask: bv8, val: bv8)
      requires Valid()
      modifies this`ctr, this`dcr
      ensures Valid() && ctr == FrobControl(old(ctr), mask, val)
    {
      if mask & DIRECTION != 0 {
        if val & DIRECTION != 0 {
          RawFrob(DIRECTION, DIRECTION);
        } else {
          RawFrob(DIRECTION, 0);
        }
      }
      RawFrob(mask & LINES, val & LINES);
    }

    // ---- The wait queue ----

    // The pointers once the k-th waiter of q has been spliced out.
    ghost predicate Spliced(q: seq<Pardevice>, k: nat)
      requires k < |q|
      reads this, q
    {
      && waithead == (if k == 0 then At(q, 1) else First(q))
      && waittail == (if k == |q| - 1 then At(q, k - 1) else Last(q))
      && (forall i {:trigger q[i].waitprev} :: 0 <= i < |q| && i != k ==>
            q[i].waitprev == At(q, if i == k + 1 then k - 1 else i - 1))
      && (forall i {:trigger q[i].waitnext} :: 0 <= i < |q| && i != k ==>
            q[i].waitnext == At(q, if i == k - 1 then k + 1 else i + 1))
    }

    method Splice(dev: Pardevice, ghost k: nat)
      requires QueueLinks() && k < |Queue| && dev == Queue[k]
      modifies this`waithead, this`waittail, Queue`waitnext, Queue`waitprev
      ensures Spliced(Queue, k) && dev.waitnext == null && dev.waitprev == null
    {
      if dev.waitprev != null {
        dev.waitprev.waitnext := dev.waitnext;
      } else {
        waithead := dev.waitnext;
      }
      if dev.waitnext != null {
        dev.waitnext.waitprev := dev.waitprev;
      } else {
        waittail := dev.waitprev;
      }
      dev.waitprev, dev.waitnext := null, null;
    }

    // q' is q without its k-th element, so the spliced pointers link q'.
    lemma SplicedLinks(q: seq<Pardevice>, k: nat, q': seq<Pardevice>)
      requires k < |q| && Spliced(q, k) && |q'| == |q| - 1
      requires forall i {:trigger q'[i]} :: 0 <= i < k ==> q'[i] == q[i]
      requires forall i {:trigger q'[i]} :: k <= i < |q'| ==> q'[i] == q[i + 1]
      ensures waithead == First(q') && waittail == Last(q')
      ensures forall i {:trigger q'[i].waitprev} :: 0 <= i < |q'| ==> q'[i].waitprev == At(q', i - 1)
      ensures forall i {:trigger q'[i].waitnext} :: 0 <= i < |q'| ==> q'[i].waitnext == At(q', i + 1)
    {}

    method Dequeue(dev: Pardevice, ghost k: nat, ghost q': seq<Pardevice>)
      requires QueueLinks() && Removed(Queue, dev, k, q')
      modifies this`waithead, this`waittail, this`Queue, Queue`waitnext, Queue`waitprev
      ensures QueueLinks() && Queue == q'
      ensures dev.waitnext == null && dev.waitprev == null
    {
      ghost var q := Queue;
      Splice(dev, k);
      SplicedLinks(q, k, q');
      Queue := q';
    }

    method Enqueue(dev: Pardevice)
      requires QueueLinks() && dev !in Queue
      modifies this`waithead, this`waittail, this`Queue, Queue`waitnext, dev`waitnext, dev`waitprev
      ensures QueueLinks() && Queue == old(Queue) + [dev]
    {
      dev.waitnext := null;
      dev.waitprev := waittail;
      if waittail != null {
        waittail.waitnext := dev;
        waittail := dev;
      } else {
        waithead := dev;
        waittail := dev;
      }
      Queue := Queue + [dev];
    }

    // A device prepared to sleep joins the queue.
    method Join(dev: Pardevice)
      requires Lists() && dev in Devs && dev.sleeps && !dev.queued && cad != dev
      modifies this`waithead, this`waittail, this`Queue, Devs`waitnext, Devs`waitprev, dev`queued
      ensures Lists() && Queue == old(Queue) + [dev]
    {
      assert forall i | 0 <= i < |Queue| :: Queue[i] in Devs;
      dev.queued := true;
      Enqueue(dev);
    }

    // A waiter leaves the queue, both waiting bits cleared.
    method Leave(dev: Pardevice, ghost k: nat, ghost q': seq<Pardevice>)
      requires Lists() && Removed(Queue, dev, k, q')
      modifies this`waithead, this`waittail, this`Queue, Devs`waitnext, Devs`waitprev, dev`queued, dev`sleeps
      ensures Lists() && Queue == q' && !dev.sleeps
    {
      assert forall i | 0 <= i < |Queue| :: Queue[i] in Devs;
      ClearBits(dev, q');
      Dequeue(dev, k, q');
    }

    // The waiting bits agree with q', and only dev's links may still be set off it.
    ghost predicate BitsFor(dev: Pardevice, q': seq<Pardevice>)
      reads `Devs, Devs`queued, Devs`sleeps, Devs`waitnext, Devs`waitprev
    {
      forall d <- Devs :: (d in q' <==> d.queued) && (d.queued ==> d.sleeps)
                          && (!d.queued && d != dev ==> d.waitnext == null && d.waitprev == null)
    }

    method ClearBits(dev: Pardevice, ghost q': seq<Pardevice>)
      requires Lists() && dev in Devs && dev !in q' && (forall x <- q' :: x in Queue)
      requires forall x <- Queue :: x != dev ==> x in q'
      modifies dev`queued, dev`sleeps
      ensures DevLinks() && QueueLinks() && BitsFor(dev, q') && !dev.sleeps
    {
      dev.queued, dev.sleeps := false, false;
    }

    method LeaveQueue(dev: Pardevice)
      requires Lists() && dev in Queue
      modifies this`waithead, this`waittail, this`Queue, Devs`waitnext, Devs`waitprev, dev`queued, dev`sleeps
      ensures Lists() && Queue == Without(old(Queue), dev) && dev !in Queue && !dev.sleeps
    {
      WithoutRemoves(Queue, dev);
      Leave(dev, IndexOf(Queue, dev), Without(Queue, dev));
    }

    // ---- Claiming and releasing ----

    // Either the device owns the port afterwards (r == 0), with its saved control
    // byte in the register, or somebody else does; then it is queued if it is
    // prepared to sleep, and an owner with a preempt callback learns of it.
    method Claim(dev: Pardevice, now: Jiffies) returns (r: int)
      requires Valid() && dev in Devs
      modifies this`cad, this`ctr, this`dcr, this`waithead, this`waittail, this`Queue
      modifies Devs`waitnext, Devs`waitprev, Devs`queued, dev`sleeps, dev`time, Devs`preemptRequest
      ensures Valid() && r == (if cad == dev then 0 else -11)
      ensures old(cad) == null ==>
                && cad == dev && ctr == dev.ctr & CTR_WRITABLE
                && Queue == if dev in old(Queue) then Without(old(Queue), dev) else old(Queue)
      ensures old(cad) != null ==> cad == old(cad) && ctr == old(ctr)
      ensures dev.time == if old(cad) == null then now else old(dev.time)
      ensures old(cad) != null ==>
                Queue == if cad != dev && dev.sleeps && dev !in old(Queue) then old(Queue) + [dev] else old(Queue)
      ensures dev.sleeps == (old(dev.sleeps) && !(old(cad) == null && dev in old(Queue)))
      ensures old(cad) != null && old(cad) != dev && old(cad).preempt ==> old(cad).preemptRequest
    {
      if cad == dev {
        return 0;
      }
      var oldcad := cad;
      if oldcad != null {
        if oldcad.preempt {
          // the callback notes the request and refuses, so nothing is saved here
          oldcad.preemptRequest := true;
        }
        if dev.sleeps && !dev.queued {
          Join(dev);
        }
        return -EAGAIN;
      }
      Take(dev, now);
      return 0;
    }

    // A device takes the port nobody owns.
    method Take(dev: Pardevice, now: Jiffies)
      requires Valid() && dev in Devs && cad == null
      modifies this`cad, this`ctr, this`dcr, this`waithead, this`waittail, this`Queue
      modifies Devs`waitnext, Devs`waitprev, dev`queued, dev`sleeps, dev`time
      ensures Valid() && cad == dev && ctr == dev.ctr & CTR_WRITABLE && dev.time == now
      ensures Queue == if dev in old(Queue) then Without(old(Queue), dev) else old(Queue)
      ensures dev.sleeps == (old(dev.sleeps) && dev !in old(Queue))
    {
      if dev.queued {
        LeaveQueue(dev);
      }
      Own(dev, now);
    }

    method Own(dev: Pardevice, now: Jiffies)
      requires Valid() && dev in Devs && cad == null && dev !in Queue
      modifies this`cad, this`ctr, this`dcr, dev`time
      ensures Valid() && cad == dev && ctr == dev.ctr & CTR_WRITABLE && dev.time == now
    {
      cad := dev;
      RestoreState(dev);
      dev.time := now;
    }

    method RestoreState(dev: Pardevice)
      modifies this`ctr, this`dcr
      ensures ctr == dcr == dev.ctr & CTR_WRITABLE
      ensures Writable(ctr)
    {
      var c := dev.ctr & CTR_WRITABLE;
      dcr := c;
      ctr := c;
    }

    // ---- The arbiter's operations ----

    // sunix_parport_claim_or_block up to the point where it sleeps: r is 0 when
    // the device owns the port, -EAGAIN when its thread goes to sleep in the queue.
    method ClaimOrBlock(dev: Pardevice, now: Jiffies) returns (r: int)
      requires Valid() && Settled() && dev in Devs && dev !in Queue
      modifies this`cad, this`ctr, this`dcr, this`waithead, this`waittail, this`Queue
      modifies Devs`waitnext, Devs`waitprev, Devs`queued, dev`sleeps, dev`time, Devs`preemptRequest
      ensures Valid() && Settled()
      ensures Abs() == Claimed(old(Abs()), dev, true)
      ensures r == (if cad == dev then 0 else -11) && (r != 0 ==> dev in Queue)
      ensures dev.time == if old(cad) == null then now else old(dev.time)
      ensures old(cad) != null && old(cad) != dev ==> cad == old(cad) && Queue == old(Queue) + [dev]
      ensures if r == 0 then !dev.sleeps && !dev.queued else dev.sleeps && dev.queued
    {
      r := TakeOrQueue(dev, now);
      assert Saved() == old(Saved());
    }

    // The rest of it, once the thread has slept until its waiting word was cleared.
    method AfterSleep(dev: Pardevice) returns (r: int)
      requires Valid() && dev in Devs && dev !in Queue
      modifies dev`queued, dev`sleeps
      ensures Valid() && r == 1 && !dev.sleeps && !dev.queued && Abs() == old(Abs())
    {
      DoneWaiting(dev);
      r := 1;
    }

    method TakeOrQueue(dev: Pardevice, now: Jiffies) returns (r: int)
      requires Valid() && Settled() && dev in Devs && dev !in Queue
      modifies this`cad, this`ctr, this`dcr, this`waithead, this`waittail, this`Queue
      modifies Devs`waitnext, Devs`waitprev, Devs`queued, dev`sleeps, dev`time, Devs`preemptRequest
      ensures Valid() && r == (if cad == dev then 0 else -11) && dev.sleeps == dev.queued == (r != 0)
      ensures cad == if old(cad) == null then dev else old(cad)
      ensures ctr == if old(cad) == null then dev.ctr & CTR_WRITABLE else old(ctr)
      ensures dev.time == if old(cad) == null then now else old(dev.time)
      ensures Queue == if old(cad) == null || old(cad) == dev then old(Queue) else old(Queue) + [dev]
    {
      PrepareToSleep(dev);
      r := Claim(dev, now);
      if r == 0 {
        DoneWaiting(dev);
      }
    }

    method PrepareToSleep(dev: Pardevice)
      requires Valid() && dev in Devs && dev !in Queue
      modifies dev`queued, dev`sleeps
      ensures Valid() && dev.sleeps
    {
      dev.queued, dev.sleeps := false, true;
    }

    method DoneWaiting(dev: Pardevice)
      requires Valid() && dev in Devs && dev !in Queue
      modifies dev`queued, dev`sleeps
      ensures Valid() && !dev.sleeps && !dev.queued
    {
      dev.queued, dev.sleeps := false, false;
    }

    method Release(dev: Pardevice, now: Jiffies)
      requires Valid() && Settled() && dev in Devs
      modifies this`cad, this`ctr, this`dcr, this`waithead, this`waittail, this`Queue
      modifies Devs`waitnext, Devs`waitprev, Devs`queued, Devs`sleeps, Devs`time, Devs`preemptRequest, dev`ctr
      ensures Valid() && Settled()
      ensures Abs() == Released(old(Abs()), dev)
      ensures old(cad) == dev && old(Queue) != [] ==>
                cad == old(Queue)[0] && cad in Devs && cad.time == now && Queue == old(Queue)[1..]
    {
      if cad != dev {
        return;
      }
      Drop(dev);
      HandOff(now);
    }

    // The owner lets go, and its control byte is saved.
    method Drop(dev: Pardevice)
      requires Valid() && dev in Devs && cad == dev
      modifies this`cad, dev`ctr
      ensures Valid() && cad == null
      ensures Abs() == old(Abs()).(owner := None, saved := old(Abs()).saved[dev := ctr])
    {
      cad := null;
      dev.ctr := ctr;
    }

    // The walk over the wait queue at the end of a release.  Every waiter's thread
    // sleeps, so the walk stops at the first and gives it the port.
    method HandOff(now: Jiffies)
      requires Valid() && cad == null
      modifies this`cad, this`ctr, this`dcr, this`waithead, this`waittail, this`Queue
      modifies Devs`waitnext, Devs`waitprev, Devs`queued, Devs`sleeps, Devs`time, Devs`preemptRequest
      ensures Valid() && Settled()
      ensures old(Queue) == [] ==> Abs() == old(Abs())
      ensures old(Queue) != [] ==>
                cad == old(Queue)[0] && cad in Devs && cad.time == now && Queue == old(Queue)[1..]
      ensures old(Queue) != [] ==> Abs() == Grant(old(Abs()).(queue := old(Queue)[1..]), old(Queue)[0])
    {
      var pd := waithead;
      if pd != null {
        assert pd.sleeps;
        GrantHead(pd, now);
      }
    }

    // The head of the queue claims the port nobody owns.
    method GrantHead(pd: Pardevice, now: Jiffies)
      requires Valid() && cad == null && Queue != [] && pd == Queue[0]
      modifies this`cad, this`ctr, this`dcr, this`waithead, this`waittail, this`Queue
      modifies Devs`waitnext, Devs`waitprev, Devs`queued, Devs`sleeps, Devs`time, Devs`preemptRequest
      ensures Valid() && cad == pd && pd in Devs && pd.time == now
      ensures Queue == old(Queue)[1..] && ctr == pd.ctr & CTR_WRITABLE
    {
      WithoutHead(Queue);
      var r := Claim(pd, now);
    }

    // The owner gives the port up once its time slice is over and somebody waits.  The
    // call comes k ticks after dev last got the port, in the clock's arithmetic.
    method YieldBlocking(dev: Pardevice, now: Jiffies, ghost k: Jiffies) returns (r: int)
      requires Valid() && Settled() && dev in Devs && dev !in Queue && now == (dev.time + k) % 0x1_0000_0000_0000_0000
      modifies this`cad, this`ctr, this`dcr, this`waithead, this`waittail, this`Queue
      modifies Devs`waitnext, Devs`waitprev, Devs`queued, Devs`sleeps, Devs`time, Devs`preemptRequest, dev`ctr
      ensures Valid() && Settled()
      ensures Abs() == Yielded(old(Abs()), dev, k >= old(dev.timeslice))
      ensures k < old(dev.timeslice) || old(Queue) == [] ==> cad == old(cad) && Queue == old(Queue) && r == 0
      ensures k >= old(dev.timeslice) && old(Queue) != [] && old(cad) == dev ==>
                cad == old(Queue)[0] && cad.time == now && Queue == old(Queue)[1..] + [dev] && r == -11
    {
      ElapsedTicks(now, dev.time, k);
      var timeslip := Elapsed(now, dev.time);
      if waithead == null || timeslip < dev.timeslice {
        return 0;
      }
      r := GiveWay(dev, now);
    }

    // The owner's release and its next claim; one that is no owner just claims.
    method GiveWay(dev: Pardevice, now: Jiffies) returns (r: int)
      requires Valid() && Settled() && dev in Devs && dev !in Queue && Queue != []
      modifies this`cad, this`ctr, this`dcr, this`waithead, this`waittail, this`Queue
      modifies Devs`waitnext, Devs`waitprev, Devs`queued, Devs`sleeps, Devs`time, Devs`preemptRequest, dev`ctr
      ensures Valid() && Settled()
      ensures Abs() == Yielded(old(Abs()), dev, true) && (r == if cad == dev then 0 else -11)
      ensures old(cad) == dev ==> cad == old(Queue)[0] && cad.time == now && Queue == old(Queue)[1..] + [dev]
    {
      Release(dev, now);
      r := ClaimOrBlock(dev, now);
    }

    // ---- Registration and references ----

    method GetPort()
      requires Valid() && !freed
      modifies this`refCount, this`holds
      ensures Valid() && !freed && holds == old(holds) + 1
    {
      refCount := refCount + 1;
      holds := holds + 1;
    }

    // The port is freed by the last put, and then no device is registered.
    method PutPort()
      requires Valid() && holds > 0
      modifies this`refCount, this`holds, this`freed
      ensures Valid() && holds == old(holds) - 1
      ensures freed <==> holds == 0 && Devs == []
    {
      holds := holds - 1;
      refCount := refCount - 1;
      if refCount == 0 {
        freed := true;
      }
    }

    // The new device goes to the front of the device list.
    method Link(tmp: Pardevice)
      requires DevLinks() && tmp !in Devs && tmp.prev == null
      modifies this`devices, this`Devs, Devs`prev, tmp`next
      ensures DevLinks() && Devs == [tmp] + old(Devs)
    {
      tmp.next := devices;
      if devices != null {
        devices.prev := tmp;
      }
      devices := tmp;
      Devs := [tmp] + Devs;
    }

    method LinkDevice(tmp: Pardevice)
      requires Lists() && OwnerKnown() && tmp !in Devs && tmp !in Queue && !tmp.queued
      requires tmp.waitnext == null && tmp.waitprev == null && tmp.prev == null
      modifies this`devices, this`Devs, Devs`prev, tmp`next
      ensures Lists() && OwnerKnown() && Devs == [tmp] + old(Devs) && Saved() == old(Saved())[tmp := tmp.ctr]
    {
      Link(tmp);
    }

    // The reference taken for the device is now its own.
    method Count(tmp: Pardevice)
      requires Lists() && OwnerKnown() && Registers()
      requires Devs != [] && Devs[0] == tmp && refCount == holds + |Devs| - 1 && !freed && holds > 0 && !excl
      requires forall d <- Devs :: d.exclusive ==> d == tmp && |Devs| == 1
      modifies this`excl, this`holds
      ensures Valid() && holds == old(holds) - 1 && excl == tmp.exclusive
    {
      if tmp.exclusive {
        excl := true;
      }
      holds := holds - 1;
    }

    method Insert(tmp: Pardevice)
      requires Valid() && !freed && holds > 0 && tmp !in Devs && !tmp.queued && !excl
      requires tmp.waitnext == null && tmp.waitprev == null && tmp.prev == null
      requires tmp.exclusive ==> Devs == []
      modifies this`devices, this`excl, this`holds, this`Devs, Devs`prev, tmp`next
      ensures Valid() && Devs == [tmp] + old(Devs) && holds == old(holds) - 1 && excl == tmp.exclusive
      ensures Abs() == old(Abs()).(saved := old(Saved())[tmp := tmp.ctr])
    {
      LinkDevice(tmp);
      Count(tmp);
    }

    // A device is refused when an exclusive one is registered, or when it wants the
    // port for itself and somebody else is there; a refusal leaves no trace.
    method RegisterDevice(preempt: bool, exclusive: bool, irq: bool, timeslice: Jiffies, outOfMemory: bool)
        returns (dev: Pardevice?)
      requires Valid() && !freed
      modifies this`devices, this`excl, this`refCount, this`holds, this`freed, this`Devs, Devs`prev
      ensures Valid() && holds == old(holds) && !freed
      ensures dev != null <==> !old(excl) && !outOfMemory && !(exclusive && old(Devs) != [])
      ensures dev == null ==> Devs == old(Devs) && excl == old(excl) && Saved() == old(Saved())
      ensures dev != null ==> fresh(dev) && Devs == [dev] + old(Devs) && excl == exclusive
      ensures dev != null ==> Abs() == Registered(old(Abs()), dev, irq) && dev.ctr == if irq then 0x1C else 0x0C
    {
      if excl {
        return null;
      }
      GetPort();
      if outOfMemory {
        PutPort();
        return null;
      }
      if exclusive && devices != null {
        PutPort();
        return null;
      }
      dev := NewDevice(preempt, exclusive, irq, timeslice);
    }

    method NewDevice(preempt: bool, exclusive: bool, irq: bool, timeslice: Jiffies) returns (tmp: Pardevice)
      requires Valid() && !freed && holds > 0 && !excl && (exclusive ==> Devs == [])
      modifies this`devices, this`excl, this`holds, this`Devs, Devs`prev
      ensures Valid() && holds == old(holds) - 1 && fresh(tmp) && Devs == [tmp] + old(Devs) && excl == exclusive
      ensures Abs() == Registered(old(Abs()), tmp, irq) && tmp.ctr == if irq then 0x1C else 0x0C
    {
      tmp := new Pardevice(preempt, exclusive, irq, timeslice);
      Insert(tmp);
    }

    // The pointers once the k-th device of q has been spliced out.
    ghost predicate DevSpliced(q: seq<Pardevice>, k: nat)
      requires k < |q|
      reads `devices, q`next, q`prev
    {
      && devices == (if k == 0 then At(q, 1) else First(q))
      && (forall i {:trigger q[i].prev} :: 0 <= i < |q| && i != k ==>
            q[i].prev == At(q, if i == k + 1 then k - 1 else i - 1))
      && (forall i {:trigger q[i].next} :: 0 <= i < |q| && i != k ==>
            q[i].next == At(q, if i == k - 1 then k + 1 else i + 1))
    }

    method SpliceDev(dev: Pardevice, ghost k: nat)
      requires DevLinks() && k < |Devs| && dev == Devs[k]
      modifies this`devices, Devs`next, Devs`prev
      ensures DevSpliced(Devs, k)
    {
      if dev.next != null {
        dev.next.prev := dev.prev;
      }
      if dev.prev != null {
        dev.prev.next := dev.next;
      } else {
        devices := dev.next;
      }
    }

    lemma DevSplicedAt(q: seq<Pardevice>, k: nat, q': seq<Pardevice>, i: nat)
      requires k < |q| && DevSpliced(q, k) && |q'| == |q| - 1 && i < |q'|
      requires forall i {:trigger q'[i]} :: 0 <= i < k ==> q'[i] == q[i]
      requires forall i {:trigger q'[i]} :: k <= i < |q'| ==> q'[i] == q[i + 1]
      ensures q'[i].prev == At(q', i - 1) && q'[i].next == At(q', i + 1)
    {
      if i < k {
        assert q[i].prev == At(q, i - 1);
        assert q[i].next == At(q, if i == k - 1 then k + 1 else i + 1);
      } else {
        assert q[i + 1].prev == At(q, if i == k then k - 1 else i);
        assert q[i + 1].next == At(q, i + 2);
      }
    }

    method Unlink(dev: Pardevice, ghost k: nat, ghost q': seq<Pardevice>)
      requires DevLinks() && Removed(Devs, dev, k, q')
      modifies this`devices, this`Devs, Devs`next, Devs`prev
      ensures DevLinks() && Devs == q'
    {
      ghost var q := Devs;
      SpliceDev(dev, k);
      forall i {:trigger q'[i].prev} | 0 <= i < |q'| ensures q'[i].prev == At(q', i - 1) {
        DevSplicedAt(q, k, q', i);
      }
      forall i {:trigger q'[i].next} | 0 <= i < |q'| ensures q'[i].next == At(q', i + 1) {
        DevSplicedAt(q, k, q', i);
      }
      Devs := q';
    }

    // A device that still owns the port is made to release it, then leaves both
    // lists and gives its reference back.  (The two lists have separate locks; the
    // order in which the device leaves them does not matter here.)
    method UnregisterDevice(dev: Pardevice, now: Jiffies)
      requires Valid() && Settled() && dev in Devs
      modifies this, Devs
      ensures Valid() && Settled() && holds == old(holds)
      ensures Devs == Without(old(Devs), dev) && Abs() == Unregistered(old(Abs()), dev)
    {
      MakeRelease(dev, now);
      RemoveDevice(dev);
    }

    method MakeRelease(dev: Pardevice, now: Jiffies)
      requires Valid() && Settled() && dev in Devs
      modifies this`cad, this`ctr, this`dcr, this`waithead, this`waittail, this`Queue
      modifies Devs`waitnext, Devs`waitprev, Devs`queued, Devs`sleeps, Devs`time, Devs`preemptRequest, dev`ctr
      ensures Valid() && Settled() && cad != dev
      ensures Abs() == Released(old(Abs()), dev)
    {
      AbsInv();
      ReleasedInv(Abs(), dev);
      if cad == dev {
        Release(dev, now);
      }
    }

    method RemoveDevice(dev: Pardevice)
      requires Valid() && Settled() && dev in Devs && cad != dev
      modifies this`waithead, this`waittail, this`Queue, this`devices, this`excl, this`refCount, this`freed, this`Devs
      modifies Devs`waitnext, Devs`waitprev, Devs`next, Devs`prev, dev`queued, dev`sleeps
      ensures Valid() && Settled() && Devs == Without(old(Devs), dev)
      ensures Abs() == Forgotten(old(Abs()), dev)
    {
      WithoutRemoves(Devs, dev);
      ghost var qk := QueuePlace(dev);
      Remove(dev, IndexOf(Devs, dev), Without(Devs, dev), qk, Without(Queue, dev));
    }

    lemma QueuePlace(dev: Pardevice) returns (k: nat)
      requires NoDup(Queue)
      ensures if dev in Queue then Removed(Queue, dev, k, Without(Queue, dev)) else Without(Queue, dev) == Queue
    {
      k := 0;
      if dev in Queue {
        WithoutRemoves(Queue, dev);
        k := IndexOf(Queue, dev);
      }
    }

    method Remove(dev: Pardevice, ghost dk: nat, ghost ds': seq<Pardevice>, ghost qk: nat, ghost qs': seq<Pardevice>)
      requires Valid() && dev in Devs && cad != dev && Removed(Devs, dev, dk, ds')
      requires if dev in Queue then Removed(Queue, dev, qk, qs') else qs' == Queue
      modifies this`waithead, this`waittail, this`Queue, this`devices, this`excl, this`refCount, this`freed, this`Devs
      modifies Devs`waitnext, Devs`waitprev, Devs`next, Devs`prev, dev`queued, dev`sleeps
      ensures Valid() && Queue == qs' && Devs == ds'
      ensures Saved() == old(Saved()) - {dev}
    {
      StopWaiting(dev, qk, qs');
      UnlinkDevice(dev, dk, ds');
      Uncount(dev);
    }

    method StopWaiting(dev: Pardevice, ghost qk: nat, ghost qs': seq<Pardevice>)
      requires Lists() && OwnerKnown() && dev in Devs
      requires if dev in Queue then Removed(Queue, dev, qk, qs') else qs' == Queue
      modifies this`waithead, this`waittail, this`Queue, Devs`waitnext, Devs`waitprev, dev`queued, dev`sleeps
      ensures Lists() && OwnerKnown() && Queue == qs' && dev !in Queue && Saved() == old(Saved())
    {
      if dev.waitprev != null || dev.waitnext != null || waithead == dev {
        Leave(dev, qk, qs');
      }
    }

    method Uncount(dev: Pardevice)
      requires Lists() && OwnerKnown() && Registers()
      requires refCount == holds + |Devs| + 1 && !freed
      requires forall d <- Devs :: d.exclusive ==> excl
      requires excl ==> if dev.exclusive then Devs == [] else |Devs| == 1 && Devs[0].exclusive
      modifies this`excl, this`refCount, this`freed
      ensures Valid() && Saved() == old(Saved())
    {
      if dev.exclusive {
        excl := false;
      }
      refCount := refCount - 1;
      if refCount == 0 {
        freed := true;
      }
    }

    method UnlinkDevice(dev: Pardevice, ghost k: nat, ghost q': seq<Pardevice>)
      requires Lists() && OwnerKnown() && cad != dev && dev !in Queue && Removed(Devs, dev, k, q')
      modifies this`devices, this`Devs, Devs`next, Devs`prev
      ensures Lists() && OwnerKnown() && Devs == q' && Saved() == old(Saved()) - {dev}
    {
      Unlink(dev, k, q');
    }

    // ---- Interrupted waits ----

    // Walking q back from its tail retraces the old queue.
    lemma {:induction false} WalkBack(q: seq<Pardevice>, old_: seq<Pardevice>, k: nat, j: nat)
      requires k < |old_| && j < |old_| - k && ProperQueue(q)
      requires waittail == old_[k] && waittail.waitprev == Last(old_)
      requires forall i :: k < i < |old_| ==> old_[i].waitprev == old_[i - 1]
      ensures j + 2 <= |q| && q[|q| - 2 - j] == old_[|old_| - 1 - j]
    {
      if j == 0 {
        assert q[|q| - 1].waitprev == At(q, |q| - 2);
      } else {
        WalkBack(q, old_, k, j - 1);
        assert old_[|old_| - j].waitprev == old_[|old_| - 1 - j];
        assert q[|q| - 1 - j].waitprev == At(q, |q| - 2 - j);
      }
    }

    // A wait cut short by a signal leaves its device on the queue; the device's
    // next claim_or_block forgets that it is there and puts it on a second time.
    // Then no list at all is described by the links: ClaimOrBlock keeps the queue
    // proper exactly for devices that are not on it.
    method BlockWhileQueued(dev: Pardevice)
      requires Valid() && dev in Queue && cad != null && cad != dev
      modifies this`waithead, this`waittail, Queue`waitnext, Queue`waitprev, dev`queued, dev`sleeps
      ensures dev.queued && dev.sleeps && waittail == dev && waithead == old(waithead)
      ensures dev.waitprev == old(waittail) && dev.waitnext == (if old(waittail) == dev then dev else null)
      ensures old(waittail) != dev ==> waittail.waitprev.waitnext == dev
      ensures forall d <- Queue :: d != dev ==> d.waitprev == old(d.waitprev) && (d == old(waittail) || d.waitnext == old(d.waitnext))
      ensures forall q: seq<Pardevice> :: !ProperQueue(q)
    {
      ghost var k := IndexOf(Queue, dev);
      dev.queued, dev.sleeps := false, true;
      dev.queued := true;
      dev.waitnext := null;
      dev.waitprev := waittail;
      waittail.waitnext := dev;
      waittail := dev;
      forall q: seq<Pardevice> ensures !ProperQueue(q) {
        if ProperQueue(q) {
          WalkBack(q, Queue, k, |Queue| - 1 - k);
          assert false;
        }
      }
    }
  }

  // sunix_parport_pc_probe_port: a port that is none is put, and so freed, at once.
  // (made is the port in either case.)
  method ProbePort(hasEcr: bool, answers: Answers) returns (p: Parport?, ghost made: Parport)
    ensures fresh(made) && made.Valid() && made.Settled() && made.Devs == []
    ensures p == (if IsPort(answers) then made else null) && (made.freed <==> p == null)
    ensures p != null ==> p.holds == 1 && p.Abs() == Arb(None, [], INITIAL_CTR, map[])
  {
    var port := new Parport(hasEcr, answers);
    made := port;
    if !port.usable {
      port.PutPort();
      return null, port;
    }
    p := port;
  }
}
