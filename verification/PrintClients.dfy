// The two writers on top of the strobe loop: the line printer device
// (driver/snx_lp.c) and the user-space port (driver/snx_ppdev.c).

module PrintClients {
  import opened Errno
  import ControlRegister
  import opened Wire
  import opened SerialModel
  import opened CompatPorts

  const LP_BUFFER_SIZE: nat := 4096
  const PP_BUFFER_SIZE: nat := 1024

  // One chunk of a write: `kbuf` is the part of `buf` from pos, and the first pos
  // bytes have been received on top of `base`.
  method SendChunk(port: CompatPort, kbuf: seq<bv8>, ghost base: seq<bv8>, ghost buf: seq<bv8>, ghost pos: nat)
      returns (written: nat)
    requires port.Valid() && pos + |kbuf| <= |buf| && kbuf == buf[pos..pos + |kbuf|]
    requires Mine(port.log) == base + buf[..pos]
    modifies port`log, port`seen, port`ctr, port`patience
    ensures port.Valid() && !Strobe(port.ctr) && written <= |kbuf| && port.patience <= old(port.patience)
    ensures Mine(port.log) == base + buf[..pos + written] && old(port.log) <= port.log
    ensures port.seen >= old(port.seen)
    ensures ReadyFrom(port.statusAt, old(port.seen)) ==> written == |kbuf| && port.patience == old(port.patience)
    ensures NeverReady(port.statusAt, old(port.seen)) ==> written == 0
  {
    written := port.WriteCompat(kbuf);
    assert buf[..pos] + kbuf[..written] == buf[..pos + written];
  }

  // ---- The line printer ----

  // No error line (bit 3), and for a careful user paper (bit 5) and an on-line printer
  // (bit 4) too: the printer is taken to be all right.
  predicate AllRight(status: bv8, careful: bool) {
    status & 0x08 != 0 && (careful ==> status & 0x20 == 0 && status & 0x10 != 0)
  }

  function ErrorOf(status: bv8, careful: bool): int {
    if AllRight(status, careful) then 0 else if status & 0x20 != 0 then -28 else -5
  }

  // What a wait for the printer comes to that starts with the i-th status read, when
  // so many checks find no signal.
  function WaitResult(statusAt: nat -> bv8, i: nat, patience: nat, giveUp: bool, careful: bool): int
    decreases patience
  {
    var error := ErrorOf(statusAt(i), careful);
    if error != 0 && giveUp then error
    else if patience == 0 then -EINTR
    else if error == 0 then 0
    else WaitResult(statusAt, i + 1, patience - 1, giveUp, careful)
  }

  // It comes to 0 exactly when some status read finds the printer all right before a
  // signal arrives: the first one, for those who do not wait.
  lemma {:induction false} WaitSucceedsIff(statusAt: nat -> bv8, i: nat, patience: nat, giveUp: bool, careful: bool)
    ensures WaitResult(statusAt, i, patience, giveUp, careful) == 0 <==>
            exists n: nat {:trigger statusAt(n)} ::
              i <= n < i + patience && (giveUp ==> n == i) && AllRight(statusAt(n), careful)
    decreases patience
  {
    if patience > 0 && !giveUp {
      WaitSucceedsIff(statusAt, i + 1, patience - 1, giveUp, careful);
    }
  }

  // The last access was a status read that found the printer all right.
  ghost predicate JustAllRight(log: seq<BusEvent>, careful: bool) {
    log != [] && var e := log[|log| - 1]; e.mine && e.op.Status? && AllRight(e.op.v, careful)
  }

  class LpDevice {
    const port: CompatPort
    var claimed: bool             // bit SNX_LP_PARPORT_CLAIMED
    var preemptRequest: bool      // bit SNX_LP_PREEMPT_REQUEST
    var abort: bool
    var careful: bool
    var lastError: bv8
    var ioTimeout: nat

    ghost predicate Valid()
      reads this, port
    {
      port.Valid() && !Strobe(port.ctr)
    }

    constructor (port: CompatPort, ioTimeout: nat)
      requires port.Valid() && !Strobe(port.ctr)
      ensures Valid() && !claimed && this.port == port && !abort && !careful
    {
      this.port, this.ioTimeout := port, ioTimeout;
      claimed, preemptRequest, abort, careful, lastError := false, false, false, false, 0;
    }

    method ClaimOrBlock()
      requires Valid()
      modifies `claimed, port`log
      ensures Valid() && claimed && Mine(port.log) == old(Mine(port.log)) && old(port.log) <= port.log
    {
      if !claimed {
        claimed := true;
        port.ReleaseAndReclaim();
      }
    }

    method ReleasePort()
      modifies `claimed
      ensures !claimed
    {
      claimed := false;
    }

    // snx_lp_error: let others use the port while the printer recovers, unless told
    // to abort.
    method Error()
      requires Valid() && claimed
      modifies `claimed, port`log
      ensures Valid() && claimed && Mine(port.log) == old(Mine(port.log)) && old(port.log) <= port.log
      ensures abort ==> port.log == old(port.log)
    {
      if abort {
        return;
      }
      if port.noIrq {
        ReleasePort();
        ClaimOrBlock();
      } else {
        port.YieldBlocking();
      }
    }

    // What a status means, and what to remember as the last error.
    method Judge(status: bv8) returns (error: int, last: bv8)
      ensures error == ErrorOf(status, careful) && (last == 0 <==> error == 0)
    {
      error := 0;
      if status & STATUS_ERROR != 0 && !careful {
        last := 0;
      } else if status & STATUS_PAPEROUT != 0 {
        last := STATUS_PAPEROUT;
        error := -ENOSPC;
      } else if status & STATUS_SELECT == 0 {
        last := STATUS_SELECT;
        error := -EIO;
      } else if status & STATUS_ERROR == 0 {
        last := STATUS_ERROR;
        error := -EIO;
      } else {
        last := 0;
      }
    }

    // One status read, which decides the result; the accesses after it, if any, are
    // those of other clients, and nothing is sent.
    method CheckStatus() returns (error: int)
      requires Valid() && claimed
      modifies `claimed, `lastError, port`log, port`seen
      ensures Valid() && claimed && Mine(port.log) == old(Mine(port.log)) && port.seen == old(port.seen) + 1
      ensures var status := port.statusAt(old(port.seen));
              && error == ErrorOf(status, careful) && (lastError == 0 <==> error == 0)
              && old(port.log) + [Ev(true, Status(status))] <= port.log
              && (error == 0 || abort ==> port.log == old(port.log) + [Ev(true, Status(status))])
    {
      var status := port.ReadStatus();
      var last;
      error, last := Judge(status);
      lastError := last;
      if last != 0 {
        Error();
      }
    }

    // The result is decided by what the status reads find and when a signal comes;
    // it is 0 exactly when the last access found the printer all right and no signal
    // was pending after it.
    method WaitReady(nonblock: bool) returns (error: int)
      requires Valid() && claimed
      modifies `claimed, `lastError, port`log, port`seen, port`patience
      ensures Valid() && claimed && Mine(port.log) == old(Mine(port.log)) && old(port.log) < port.log
      ensures error == WaitResult(port.statusAt, old(port.seen), old(port.patience), nonblock || abort, careful) <= 0
      ensures error == 0 ==> JustAllRight(port.log, careful)
      ensures port.seen > old(port.seen) && port.patience <= old(port.patience)
      ensures nonblock || abort || AllRight(port.statusAt(old(port.seen)), careful) ==>
                port.seen == old(port.seen) + 1 && port.patience + 1 >= old(port.patience)
    {
      ghost var first := true;
      while true
        invariant Valid() && claimed && Mine(port.log) == old(Mine(port.log)) && old(port.log) <= port.log
        invariant WaitResult(port.statusAt, port.seen, port.patience, nonblock || abort, careful)
                    == WaitResult(port.statusAt, old(port.seen), old(port.patience), nonblock || abort, careful)
        invariant port.patience <= old(port.patience)
        invariant if first then port.seen == old(port.seen) && port.patience == old(port.patience) && port.log == old(port.log)
                  else port.seen > old(port.seen) && !(nonblock || abort) && !AllRight(port.statusAt(old(port.seen)), careful)
        decreases port.patience
      {
        error := CheckStatus();
        if error != 0 && (nonblock || abort) {
          return;
        }
        var signal := port.SignalPending();
        if signal {
          return -EINTR;
        }
        if error == 0 {
          return;
        }
        first := false;
      }
    }

    // What the write returns if nothing was sent and it does not go on: -EINTR for a
    // signal, the error of the wait, or -EAGAIN.
    ghost function WhyNot(short: bool, nonblock: bool): int
      reads this, port
    {
      if port.patience == 0 || !short then -4
      else
        var error := WaitResult(port.statusAt, port.seen, port.patience - 1, nonblock || abort, careful);
        if error != 0 then error else -11
    }

    // Between two chunks: a signal ends the write; after a short one, so does an
    // error or non-blocking mode, and otherwise the port is offered to others.
    method Between(retv: int, short: bool, nonblock: bool) returns (goOn: bool, r: int)
      requires Valid() && claimed
      modifies `claimed, `lastError, port`log, port`seen, port`patience
      ensures Valid() && claimed && Mine(port.log) == old(Mine(port.log)) && old(port.log) <= port.log
      ensures if goOn then r == retv && port.patience < old(port.patience) else r == if retv != 0 then retv else
                old(WhyNot(short, nonblock))
      ensures !goOn && retv == 0 ==> r < 0
      ensures goOn ==> old(port.patience) > 0 && !(short && nonblock)
      ensures port.seen >= old(port.seen)
      ensures !short ==> port.seen == old(port.seen) && (goOn <==> old(port.patience) > 0)
      ensures !short && goOn ==> port.patience == old(port.patience) - 1
    {
      goOn, r := false, retv;
      var signal := port.SignalPending();
      if signal {
        if r == 0 {
          r := -EINTR;
        }
        return;
      }
      if short {
        var error := WaitReady(nonblock);
        if error != 0 {
          if r == 0 {
            r := error;
          }
          return;
        } else if nonblock {
          if r == 0 {
            r := -EAGAIN;
          }
          return;
        }
        port.YieldBlocking();
      }
      goOn := true;
    }

    // What snx_lp_write gets from its first wait for the printer.
    ghost function FirstWait(nonblocking: bool): int
      reads this, port
    {
      WaitResult(port.statusAt, port.seen, port.patience, nonblocking || abort, careful)
    }

    // The first status read ends that wait, and from the next on the printer is ready.
    ghost predicate WillBeReady(nonblocking: bool)
      reads this, port
    {
      && (nonblocking || abort || AllRight(port.statusAt(port.seen), careful))
      && ReadyFrom(port.statusAt, port.seen + 1)
    }

    // snx_lp_write; copyFails says which copies from user space fail.  The source
    // carries the first wait's result into the count instead of checking it: the
    // bytes received are a prefix of the caller's, and a positive result is their
    // number exactly when that wait came to 0.  `waited` is the log at its end.
    method Write(buf: seq<bv8>, nonblocking: bool, copyFails: nat -> bool)
        returns (retv: int, ghost sent: nat, ghost waited: seq<BusEvent>)
      requires Valid()
      modifies this, port
      ensures Valid() && sent <= |buf| && abort == old(abort) && careful == old(careful)
      ensures Mine(port.log) == Mine(old(port.log)) + buf[..sent]
      ensures copyFails(0) ==> retv == -14 && sent == 0
      ensures !copyFails(0) ==>
                && old(port.log) < waited <= port.log && Mine(waited) == Mine(old(port.log))
                && (old(FirstWait(nonblocking)) == 0 ==> JustAllRight(waited, careful))
                && (retv == old(FirstWait(nonblocking)) + sent || (old(FirstWait(nonblocking)) + sent == 0 && retv < 0))
      ensures retv > 0 ==> retv <= sent && (retv == sent <==> old(FirstWait(nonblocking)) == 0)
      ensures (forall k :: !copyFails(k)) && old(WillBeReady(nonblocking)) && old(port.patience) > |buf| ==> sent == |buf|
      ensures NeverReady(port.statusAt, old(port.seen)) ==> sent == 0
      ensures forall k: nat {:trigger copyFails(k)} :: copyFails(k) ==> sent <= 4096 * k
      ensures !copyFails(0) ==> port.timeout == if nonblocking || abort then 1 else old(ioTimeout)
      ensures !copyFails(0) ==> !preemptRequest && claimed == !old(preemptRequest)
    {
      sent, waited := 0, [];
      if copyFails(0) {
        return -EFAULT, 0, [];
      }
      retv := Begin(nonblocking);
      waited := port.log;
      retv, sent := WriteChunks(buf, retv, nonblocking || abort, copyFails);
      if preemptRequest {
        preemptRequest := false;
        ReleasePort();
      }
    }

    // Its beginning: the claim and the first wait.
    method Begin(nonblocking: bool) returns (retv: int)
      requires Valid()
      modifies `claimed, `lastError, port
      ensures Valid() && claimed && Mine(port.log) == Mine(old(port.log)) && old(port.log) < port.log
      ensures retv == old(FirstWait(nonblocking)) <= 0 && (retv == 0 ==> JustAllRight(port.log, careful))
      ensures port.seen > old(port.seen) && port.timeout == if nonblocking || abort then 1 else ioTimeout
      ensures nonblocking || abort || AllRight(port.statusAt(old(port.seen)), careful) ==>
                port.seen == old(port.seen) + 1 && port.patience + 1 >= old(port.patience)
    {
      ClaimOrBlock();
      port.timeout := if nonblocking || abort then 1 else ioTimeout;
      retv := WaitReady(nonblocking || abort);
    }

    // The loop of snx_lp_write, from a count that starts at `first`.
    method WriteChunks(buf: seq<bv8>, first: int, nonblock: bool, copyFails: nat -> bool) returns (retv: int, ghost sent: nat)
      requires Valid() && claimed && first <= 0
      modifies `claimed, `lastError, port`log, port`seen, port`ctr, port`patience
      ensures Valid() && claimed && sent <= |buf| && old(port.log) <= port.log
      ensures Mine(port.log) == Mine(old(port.log)) + buf[..sent]
      ensures retv == first + sent || (first + sent == 0 && retv < 0)
      ensures (forall k :: !copyFails(k)) && ReadyFrom(port.statusAt, old(port.seen)) && old(port.patience) >= |buf| ==>
                sent == |buf|
      ensures NeverReady(port.statusAt, old(port.seen)) ==> sent == 0
      ensures forall k: nat {:trigger copyFails(k)} :: copyFails(k) && k > 0 ==> sent <= 4096 * k
    {
      ghost var base := Mine(port.log);
      ghost var smooth := (forall k :: !copyFails(k)) && ReadyFrom(port.statusAt, port.seen) && port.patience >= |buf|;
      var pos: nat, copies: nat := 0, 1;
      var kbuf := Chunk(buf, 0);
      retv := first;
      var goOn := true;
      while goOn
        invariant Valid() && claimed && pos <= |buf| && old(port.log) <= port.log && port.seen >= old(port.seen)
        invariant Mine(port.log) == base + buf[..pos]
        invariant goOn ==> retv == first + pos && kbuf == Chunk(buf, pos)
        invariant !goOn ==> retv == first + pos || (first + pos == 0 && retv < 0)
        invariant NeverReady(port.statusAt, old(port.seen)) ==> pos == 0
        invariant forall k: nat {:trigger copyFails(k)} :: copyFails(k) && k > 0 ==> copies <= if goOn then k else k + 1
        invariant copies > 0 && pos <= 4096 * (copies - 1)
        invariant smooth ==> if goOn then port.patience >= |buf| - pos else pos == |buf|
        decreases goOn, port.patience
      {
        goOn, pos, kbuf, retv := Turn(buf, pos, kbuf, retv, copies, base, nonblock, copyFails);
        copies := copies + 1;
      }
      sent := pos;
    }

    // What snx_lp_write copies in at a time.
    function Chunk(buf: seq<bv8>, pos: nat): seq<bv8>
      requires pos <= |buf|
    {
      if |buf| - pos > LP_BUFFER_SIZE then buf[pos..pos + LP_BUFFER_SIZE] else buf[pos..]
    }

    // One turn of that loop: send the chunk, see whether to go on, and copy in what
    // to send next.
    method Turn(buf: seq<bv8>, pos: nat, kbuf: seq<bv8>, retv: int, copies: nat, ghost base: seq<bv8>, nonblock: bool,
                copyFails: nat -> bool)
        returns (goOn: bool, next: nat, kbuf': seq<bv8>, r: int)
      requires Valid() && claimed && pos <= |buf|
      requires Mine(port.log) == base + buf[..pos] && kbuf == Chunk(buf, pos)
      modifies `claimed, `lastError, port`log, port`seen, port`ctr, port`patience
      ensures Valid() && claimed && old(port.log) <= port.log && port.seen >= old(port.seen)
      ensures pos <= next <= |buf| && Mine(port.log) == base + buf[..next]
      ensures goOn ==> r == retv + (next - pos) && port.patience < old(port.patience)
      ensures !goOn ==> r == retv + (next - pos) || (retv + (next - pos) == 0 && r < 0)
      ensures goOn ==> next < |buf| && kbuf' == Chunk(buf, next) && !copyFails(copies)
      ensures next <= pos + 4096
      ensures (forall k :: !copyFails(k)) && ReadyFrom(port.statusAt, old(port.seen)) && old(port.patience) >= |buf| - pos ==>
                if goOn then port.patience >= |buf| - next else next == |buf|
      ensures NeverReady(port.statusAt, old(port.seen)) ==> next == pos
    {
      var written := SendChunk(port, kbuf, base, buf, pos);
      next, kbuf' := pos + written, [];
      goOn, r := Between(retv + written, written < |kbuf|, nonblock);
      if goOn && next < |buf| {
        if copyFails(copies) {
          goOn, r := false, if r == 0 then -EFAULT else r;
        } else {
          kbuf' := Chunk(buf, next);
        }
      } else {
        goOn := false;
      }
    }
  }

  // A printer that is out of paper at first and ready from then on, and a caller
  // that does not wait: it receives everything, but 28 (ENOSPC) bytes fewer are
  // reported.
  method ReportsTooFew(buf: seq<bv8>) returns (retv: int, received: seq<bv8>)
    requires |buf| > 28
    ensures received == buf && retv == |buf| - 28
  {
    var port := new CompatPort(false, 0, 0, k => if k == 0 then STATUS_PAPEROUT else READY, |buf| + 1);
    var lp := new LpDevice(port, 0);
    ghost var sent, waited;
    retv, sent, waited := lp.Write(buf, true, _ => false);
    received := Mine(port.log);
  }

  // ---- The user-space port ----

  // snx_pp_write for modes other than fast EPP; a copy that fails, a chunk of which
  // nothing was written, non-blocking mode or a signal ends the loop early.  A result
  // that is not negative is the number of bytes received; after an error fewer bytes
  // than asked, but possibly some, have been.
  method PpWrite(port: CompatPort, claimed: bool, buf: seq<bv8>, nonblocking: bool, defaultTimeout: nat)
      returns (r: int, ghost sent: nat)
    requires port.Valid()
    modifies port
    ensures port.Valid() && sent <= |buf|
    ensures Mine(port.log) == old(Mine(port.log)) + buf[..sent]
    ensures r >= 0 ==> r == sent
    ensures NeverReady(port.statusAt, old(port.seen)) ==> sent == 0
    ensures if claimed then r >= 0 || r == -14 else r == -22 && sent == 0 && port.log == old(port.log)
    ensures claimed && nonblocking ==> sent <= 1024
    ensures claimed ==> port.timeout == defaultTimeout
  {
    sent := 0;
    ghost var base := Mine(port.log);
    if !claimed {
      return -EINVAL, 0;
    }
    port.timeout := if nonblocking then 1 else defaultTimeout;
    var written: nat := 0;
    r := 0;
    var goOn := |buf| > 0;
    while goOn
      invariant port.Valid() && sent == written <= |buf| && (r == sent || (!goOn && r == -14)) && port.seen >= old(port.seen)
      invariant Mine(port.log) == base + buf[..sent] && (goOn ==> sent < |buf|)
      invariant nonblocking ==> sent <= 1024 && (goOn ==> sent == 0)
      invariant NeverReady(port.statusAt, old(port.seen)) ==> sent == 0
      decreases |buf| - written, goOn
    {
      var wrote;
      wrote, r, goOn := PpChunk(port, buf, written, base, nonblocking);
      written := written + wrote;
      sent := written;
    }
    port.timeout := defaultTimeout;
    port.FrobOther(ControlRegister.IRQ_ENABLE, ControlRegister.IRQ_ENABLE);
  }

  // One turn of its loop, when `written` bytes have been received.
  method PpChunk(port: CompatPort, buf: seq<bv8>, written: nat, ghost base: seq<bv8>, nonblocking: bool)
      returns (wrote: nat, r: int, goOn: bool)
    requires port.Valid() && written < |buf| && Mine(port.log) == base + buf[..written]
    modifies port`log, port`seen, port`ctr, port`patience
    ensures port.Valid() && written + wrote <= |buf| && wrote <= 1024 && port.seen >= old(port.seen)
    ensures Mine(port.log) == base + buf[..written + wrote]
    ensures r == written + wrote || (r == -14 && wrote == 0 && !goOn)
    ensures goOn ==> wrote > 0 && !nonblocking && written + wrote < |buf|
    ensures NeverReady(port.statusAt, old(port.seen)) ==> wrote == 0
  {
    var n := if |buf| - written > PP_BUFFER_SIZE then PP_BUFFER_SIZE else |buf| - written;
    var fault: bool := *;       // copy_from_user
    if fault {
      return 0, -EFAULT, false;
    }
    wrote := SendChunk(port, buf[written..written + n], base, buf, written);
    r, goOn := written + wrote, false;
    if wrote == 0 || nonblocking {
      return;
    }
    var signal := port.SignalPending();
    goOn := !signal && written + wrote < |buf|;
  }
}
