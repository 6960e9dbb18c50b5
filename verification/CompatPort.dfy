// One client's use of a parallel port: the strobe loop of Compatibility Mode
// (driver/snx_ieee1284_ops.c) over the status waits of driver/snx_ieee1284.c.
//
// The bytes the printer's status will read as, and the number of checks for a signal
// before one is pending (it stays so), are inputs of a run; clocks and what other
// clients do with the port while this one has given it up are arbitrary.
// That a client regains the port with the control byte it left is what module
// ArbiterTheorems proves.

module CompatPorts {
  import opened Errno
  import opened ControlRegister
  import opened Wire
  import opened SerialModel

  // Select and init asserted, strobe low.
  const CTL: bv8 := SELECT | INIT

  // The last access was this client's status read, and it matched.
  predicate JustRead(log: seq<BusEvent>, mask: bv8, result: bv8) {
    log != [] && var e := log[|log| - 1]; e.mine && e.op.Status? && Matches(e.op.v, mask, result)
  }

  // From the i-th on, every status read will find the printer ready.
  ghost predicate ReadyFrom(statusAt: nat -> bv8, i: nat) {
    forall k: nat {:trigger statusAt(k)} :: i <= k ==> Ready(statusAt(k))
  }

  // From the i-th on, every status read will find the printer busy or in error.
  ghost predicate NeverReady(statusAt: nat -> bv8, i: nat) {
    forall k: nat {:trigger statusAt(k)} :: i <= k ==> statusAt(k) & 0x80 == 0 || statusAt(k) & 0x08 == 0
  }

  // From the i-th on, every status read will find paper out, the printer off line or
  // an error.
  ghost predicate TroubleFrom(statusAt: nat -> bv8, i: nat) {
    forall k: nat {:trigger statusAt(k)} :: i <= k ==> statusAt(k) & 0x38 != 0x18
  }

  // What was added to the log are accesses of this client alone.
  ghost predicate Alone(before: seq<BusEvent>, after: seq<BusEvent>) {
    before <= after && forall i :: |before| <= i < |after| ==> after[i].mine
  }

  predicate Matches(v: bv8, mask: bv8, result: bv8) {
    v & mask == result
  }

  class CompatPort {
    const noIrq: bool          // port->irq == PARPORT_IRQ_NONE
    const spintime: nat
    const statusAt: nat -> bv8 // what each status read of this client will find
    var timeout: nat           // dev->timeout
    var log: seq<BusEvent>
    var ctr: bv8
    var seen: nat              // status reads so far
    var patience: nat          // checks that will find no signal

    // This client owns the port: the strobe is as its control byte says.
    ghost predicate Valid()
      reads this
    {
      Polite(log) && (Level(log) <==> Strobe(ctr))
    }

    constructor (noIrq: bool, spintime: nat, timeout: nat, statusAt: nat -> bv8, patience: nat)
      ensures Valid() && log == [] && !Strobe(ctr) && seen == 0 && this.patience == patience
      ensures this.statusAt == statusAt
    {
      this.noIrq, this.spintime, this.timeout, this.statusAt := noIrq, spintime, timeout, statusAt;
      log, ctr, seen, this.patience := [], INITIAL_CTR, 0, patience;
    }

    method SignalPending() returns (b: bool)
      modifies `patience
      ensures b <==> old(patience) == 0
      ensures patience == if b then 0 else old(patience) - 1
    {
      b := patience == 0;
      if !b {
        patience := patience - 1;
      }
    }

    // ---- Registers ----

    method ReadStatus() returns (v: bv8)
      requires Valid()
      modifies `log, `seen
      ensures Valid() && log == old(log) + [Ev(true, Status(v))] && Mine(log) == Mine(old(log))
      ensures v == statusAt(old(seen)) && seen == old(seen) + 1
    {
      v := statusAt(seen);
      seen := seen + 1;
      Snoc(log, Ev(true, Status(v)));
      log := log + [Ev(true, Status(v))];
    }

    method WriteData(b: bv8)
      requires Valid()
      modifies `log
      ensures Valid() && old(log) <= log && Mine(log) == Mine(old(log))
      ensures Lines(log) == b && Level(log) == Level(old(log)) && Armed(log) == Armed(old(log))
    {
      Snoc(log, Ev(true, Data(b)));
      log := log + [Ev(true, Data(b))];
    }

    method OutDcr(c: bv8)
      requires Valid() && (Strobe(c) && !Level(log) ==> Armed(log))
      modifies `log, `ctr
      ensures Valid() && Alone(old(log), log) && ctr == c
      ensures Mine(log) == Mine(old(log)) + if Strobe(c) && !Level(old(log)) then [Lines(old(log))] else []
    {
      Snoc(log, Ev(true, Ctl(c)));
      log := log + [Ev(true, Ctl(c))];
      ctr := c;
    }

    // A control write that leaves the direction bit alone.
    method WriteCtl(d: bv8)
      requires Valid() && d & DIRECTION == 0 && (Strobe(d) && !Level(log) ==> Armed(log))
      modifies `log, `ctr
      ensures Valid() && Alone(old(log), log) && (Strobe(ctr) <==> Strobe(d))
      ensures Mine(log) == Mine(old(log)) + if Strobe(d) && !Level(old(log)) then [Lines(old(log))] else []
      ensures ctr & 0x0F == d & 0x0F && ctr & 0x20 == old(ctr) & 0x20
    {
      StrobeBit(ctr, d);
      OutDcr(WriteControl(ctr, d));
    }

    // A frob that leaves the strobe alone.
    method FrobOther(mask: bv8, val: bv8)
      requires Valid() && mask & STROBE == 0 && val & STROBE == 0
      modifies `log, `ctr
      ensures Valid() && Alone(old(log), log) && (Strobe(ctr) <==> Strobe(old(ctr))) && Mine(log) == Mine(old(log))
      ensures mask & 0x0F == val & 0x0F == 0 ==> ctr & 0x0F == old(ctr) & 0x0F
      ensures mask & 0x20 != 0 && val & 0x20 == 0 ==> ctr & 0x20 == 0
    {
      FrobKeepsStrobe(ctr, mask, val);
      OutDcr(Frob(ctr, mask, val));
    }

    // ---- Giving the port up for a while ----

    // Release, whatever the others do, and claim_or_block, which restores the
    // control byte.
    method ReleaseAndReclaim()
      requires Valid() && !Strobe(ctr)
      modifies `log
      ensures Valid() && old(log) <= log && Mine(log) == Mine(old(log))
    {
      var ops: seq<BusOp> := *;
      var others := seq(|ops|, i requires 0 <= i < |ops| => Ev(false, ops[i]));
      OthersAreNotMine(log, others);
      Snoc(log + others, Ev(true, Ctl(ctr)));
      log := log + others + [Ev(true, Ctl(ctr))];
    }

    method YieldBlocking()
      requires Valid() && !Strobe(ctr)
      modifies `log
      ensures Valid() && old(log) <= log && Mine(log) == Mine(old(log))
    {
      var expired: bool := *;
      if expired {
        ReleaseAndReclaim();
      }
    }

    // ---- Waiting for the printer ----

    // The wait ended well with the one status read it began with.
    ghost predicate AtOnce(ok: bool, seen0: nat, patience0: nat)
      reads this
    {
      ok && seen == seen0 + 1 && patience == patience0
    }

    // The last of the status reads since seen0 matched.
    ghost predicate LastMatched(seen0: nat, mask: bv8, result: bv8)
      reads this
    {
      seen > seen0 && Matches(statusAt(seen - 1), mask, result)
    }

    // sunix_parport_poll_peripheral
    method PollPeripheral(mask: bv8, result: bv8, usec: nat) returns (r: int)
      requires Valid()
      modifies `log, `seen, `patience
      ensures Valid() && Alone(old(log), log) && Mine(log) == Mine(old(log)) && patience <= old(patience)
      ensures r == 0 ==> JustRead(log, mask, result)
      ensures r == 0 <==> LastMatched(old(seen), mask, result)
      ensures r == 0 || r == 1 || (r == -4 && patience == 0)
      ensures seen <= old(seen) + usec / 5 + 2
      ensures seen > old(seen) && (Matches(statusAt(old(seen)), mask, result) ==> AtOnce(r == 0, old(seen), old(patience)))
    {
      var count := usec / 5 + 2;
      r := 1;
      for i := 0 to count
        invariant Valid() && Alone(old(log), log) && Mine(log) == Mine(old(log)) && patience <= old(patience) && r == 1
        invariant seen == old(seen) + i && (i == 0 ==> patience == old(patience))
        invariant i > 0 ==> !Matches(statusAt(seen - 1), mask, result)
        invariant i > 0 ==> !Matches(statusAt(old(seen)), mask, result)
      {
        r := PollOnce(mask, result);
        if r != 1 {
          return;
        }
        var resched: bool := *;
        if resched {
          break;
        }
      }
    }

    // A turn of the polling loop: 1 to go on
    method PollOnce(mask: bv8, result: bv8) returns (r: int)
      requires Valid()
      modifies `log, `seen, `patience
      ensures Valid() && Alone(old(log), log) && Mine(log) == Mine(old(log)) && patience <= old(patience)
      ensures seen == old(seen) + 1 && (r == 0 <==> Matches(statusAt(old(seen)), mask, result))
      ensures r == 0 ==> JustRead(log, mask, result) && patience == old(patience)
      ensures r == 0 || r == 1 || (r == -4 && patience == 0)
    {
      var status := ReadStatus();
      if Matches(status, mask, result) {
        return 0;
      }
      var signal := SignalPending();
      r := if signal then -EINTR else 1;
    }

    // sunix_parport_wait_peripheral: 0 exactly when its last status read matched, 1
    // when time ran out.
    method WaitPeripheral(mask: bv8, result: bv8) returns (r: int)
      requires Valid()
      modifies `log, `seen, `patience
      ensures Valid() && Alone(old(log), log) && Mine(log) == Mine(old(log)) && patience <= old(patience)
      ensures r == 0 ==> JustRead(log, mask, result)
      ensures (r == 0 <==> LastMatched(old(seen), mask, result)) && (r == 0 || r == 1 || r < 0)
      ensures seen > old(seen) && (Matches(statusAt(old(seen)), mask, result) ==> AtOnce(r == 0, old(seen), old(patience)))
      ensures timeout == 0 ==> seen <= old(seen) + 7002
    {
      r := PollPeripheral(mask, result, if timeout == 0 then 35000 else spintime);
      if r != 1 {
        return;
      }
      if timeout == 0 {
        return 1;
      }
      var beforeDeadline: bool := *;
      r := 1;
      while beforeDeadline && r == 1
        invariant Valid() && Alone(old(log), log) && Mine(log) == Mine(old(log)) && patience <= old(patience)
        invariant seen > old(seen) && !Matches(statusAt(old(seen)), mask, result)
        invariant r == 0 ==> JustRead(log, mask, result)
        invariant (r == 0 <==> LastMatched(old(seen), mask, result)) && (r == 0 || r == 1 || r < 0)
        decreases patience, r == 1
      {
        r := WaitOnce(mask, result);
        beforeDeadline := *;
      }
    }

    // A turn of the wait before the deadline: 1 to go on waiting
    method WaitOnce(mask: bv8, result: bv8) returns (r: int)
      requires Valid()
      modifies `log, `seen, `patience
      ensures Valid() && Alone(old(log), log) && Mine(log) == Mine(old(log)) && patience <= old(patience)
      ensures r == 1 ==> patience < old(patience)
      ensures r == 0 ==> JustRead(log, mask, result) && seen > old(seen)
      ensures old(seen) <= seen <= old(seen) + 1 && (r == 0 || r == 1 || r < 0)
      ensures seen > old(seen) ==> r == if Matches(statusAt(old(seen)), mask, result) then 0 else 1
    {
      var signal := SignalPending();
      if signal {
        return -EINTR;
      }
      var event: int := *;      // sunix_parport_wait_event
      if event < 0 {
        return event;
      }
      var status := ReadStatus();
      if Matches(status, mask, result) {
        return 0;
      }
      r := 1;
    }

    // The wait at the head of each round of the strobe loop; false ends the write.
    // Without an interrupt line the port is given up between attempts once a byte
    // has been sent.
    method AwaitReady(sent: bool) returns (ready: bool)
      requires Valid() && !Strobe(ctr)
      modifies `log, `seen, `patience
      ensures Valid() && old(log) <= log && Mine(log) == Mine(old(log)) && patience <= old(patience)
      ensures seen > old(seen) && (ready ==> Armed(log) && Ready(statusAt(seen - 1)))
      ensures Ready(statusAt(old(seen))) ==> AtOnce(ready, old(seen), old(patience))
      ensures !(sent && noIrq) ==> Alone(old(log), log)
      ensures NeverReady(statusAt, old(seen)) && TroubleFrom(statusAt, old(seen)) ==> Alone(old(log), log)
    {
      var goOn := true;
      ghost var first := true;
      ready := false;
      while goOn
        invariant Valid() && old(log) <= log && Mine(log) == Mine(old(log)) && patience <= old(patience)
        invariant if first then goOn && seen == old(seen) && patience == old(patience) else seen > old(seen)
        invariant !first && Ready(statusAt(old(seen))) ==> !goOn && AtOnce(ready, old(seen), old(patience))
        invariant !goOn && ready ==> Armed(log) && Ready(statusAt(seen - 1))
        invariant !(sent && noIrq) ==> Alone(old(log), log)
        invariant TroubleFrom(statusAt, old(seen)) ==> Alone(old(log), log)
        decreases goOn, patience
      {
        ready, goOn := AwaitRound(sent);
        first := false;
      }
    }

    method AwaitRound(sent: bool) returns (ready: bool, goOn: bool)
      requires Valid() && !Strobe(ctr)
      modifies `log, `seen, `patience
      ensures Valid() && old(log) <= log && Mine(log) == Mine(old(log)) && patience <= old(patience)
      ensures seen > old(seen) && (ready ==> !goOn && Armed(log) && Ready(statusAt(seen - 1)))
      ensures goOn ==> patience < old(patience)
      ensures Ready(statusAt(old(seen))) ==> AtOnce(ready, old(seen), old(patience))
      ensures !(sent && noIrq) ==> Alone(old(log), log)
      ensures TroubleFrom(statusAt, old(seen)) ==> !goOn && Alone(old(log), log)
    {
      ready, goOn := false, false;
      ReadyBits(statusAt(seen));
      var r := WaitPeripheral(READY, READY);
      if r == 0 {
        ReadyBits(statusAt(seen - 1));
        return true, false;
      }
      var status := ReadStatus();
      if status & (STATUS_PAPEROUT | STATUS_SELECT | STATUS_ERROR) != STATUS_SELECT | STATUS_ERROR {
        return;
      }
      var timeLeft: bool := *;
      if !timeLeft {
        return;
      }
      if sent && noIrq {
        ReleaseAndReclaim();
      }
      var signal := SignalPending();
      if signal {
        return;
      }
      goOn := *;                // is there time left
    }

    // sunix_parport_ieee1284_write_compat: the bytes counted are the bytes the
    // printer received from this client, in order, each strobed once and only to a
    // ready printer.
    method WriteCompat(buf: seq<bv8>) returns (count: nat)
      requires Valid()
      modifies `log, `seen, `ctr, `patience
      ensures Valid() && old(log) <= log && !Strobe(ctr) && count <= |buf| && patience <= old(patience)
      ensures Mine(log) == Mine(old(log)) + buf[..count]
      ensures seen >= old(seen) && (ReadyFrom(statusAt, old(seen)) ==> count == |buf| && patience == old(patience))
      ensures NeverReady(statusAt, old(seen)) ==> count == 0
      ensures Forward() && (count == 0 ==> Alone(old(log), log))
    {
      BeginForward();
      count := 0;
      var more := count < |buf|;
      while more
        invariant Valid() && old(log) <= log && !Strobe(ctr) && count <= |buf| && patience <= old(patience) && Forward()
        invariant Mine(log) == Mine(old(log)) + buf[..count] && seen >= old(seen) && (more ==> count < |buf|)
        invariant ReadyFrom(statusAt, old(seen)) ==> patience == old(patience) && (more || count == |buf|)
        invariant NeverReady(statusAt, old(seen)) ==> count == 0
        invariant count == 0 ==> Alone(old(log), log)
        decreases |buf| - count, more
      {
        more := OneByte(buf[count], count > 0);
        if more {
          assert buf[..count] + [buf[count]] == buf[..count + 1];
          count := count + 1;
          more := count < |buf|;
        }
      }
    }

    // A round of the strobe loop: wait for the printer, send a byte, and offer the
    // port to others if there is time.
    method OneByte(b: bv8, sent: bool) returns (ok: bool)
      requires Valid() && !Strobe(ctr)
      modifies `log, `seen, `ctr, `patience
      ensures Valid() && old(log) <= log && !Strobe(ctr) && patience <= old(patience) && seen > old(seen)
      ensures Mine(log) == Mine(old(log)) + (if ok then [b] else []) && (old(Forward()) ==> Forward())
      ensures Ready(statusAt(old(seen))) ==> ok && patience == old(patience)
      ensures NeverReady(statusAt, old(seen)) ==> !ok
      ensures !ok && !sent ==> Alone(old(log), log)
    {
      ok := AwaitReady(sent);
      if ok {
        SendByte(b);
        var timeLeft: bool := *;
        if timeLeft {
          YieldBlocking();
        }
      }
    }

    // Select and init asserted, and the data lines driven towards the printer.
    predicate Forward()
      reads this
    {
      ctr & 0x0F == 0x0C && ctr & 0x20 == 0
    }

    method BeginForward()
      requires Valid()
      modifies `log, `ctr
      ensures Valid() && Alone(old(log), log) && !Strobe(ctr) && Mine(log) == Mine(old(log)) && Forward()
    {
      if !noIrq {
        FrobOther(IRQ_ENABLE, IRQ_ENABLE);
      }
      WriteCtl(CTL);
      FrobOther(DIRECTION, 0);
    }

    method SendByte(b: bv8)
      requires Valid() && !Strobe(ctr) && Armed(log)
      modifies `log, `ctr
      ensures Valid() && old(log) <= log && !Strobe(ctr) && Mine(log) == Mine(old(log)) + [b]
      ensures old(Forward()) ==> Forward()
    {
      WriteData(b);
      WriteCtl(CTL | STROBE);
      WriteCtl(CTL);
    }
  }
}
