// The inactivity timeout of a device, kept in ticks of 1/HZ second and read and
// written as seconds and microseconds (driver/snx_ppdev.c, PPSETTIME and PPGETTIME).

module Timeouts {
  import opened Arithmetic
  import opened Options

  const SECOND: int := 1000000    // in microseconds

  // SNX_ROUND_UP on numbers that are not negative
  function RoundUp(x: nat, y: int): int
    requires y > 0
  {
    (x + y - 1) / y
  }

  // PPSETTIME: None stands for -EINVAL.
  function SetTime(hz: int, sec: int, usec: int): Option<int>
    requires 1 <= hz <= SECOND
  {
    if sec < 0 || usec < 0 then None
    else
      var ticks := RoundUp(usec, SECOND / hz) + sec * hz;
      if ticks <= 0 then None else Some(ticks)
  }

  // PPGETTIME, in seconds and microseconds
  function GetTime(hz: int, ticks: nat): (int, int)
    requires 1 <= hz <= SECOND
  {
    (ticks / hz, ticks % hz * (SECOND / hz))
  }

  function Micros(t: (int, int)): int {
    t.0 * SECOND + t.1
  }

  lemma RoundUpBounds(x: nat, y: int)
    requires y > 0
    ensures RoundUp(x, y) >= 0 && x <= RoundUp(x, y) * y < x + y
  {}

  lemma RoundUpExact(n: nat, y: int)
    requires y > 0
    ensures RoundUp(n * y, y) == n
  {
    RoundUpBounds(n * y, y);
    Squeeze(RoundUp(n * y, y), n, y);
  }

  lemma RoundUpZero(x: nat, y: int)
    requires y > 0
    ensures RoundUp(x, y) >= 0 && (RoundUp(x, y) == 0 <==> x == 0)
  {}

  // Reading the timeout and setting what was read reproduces every positive count,
  // whatever HZ is; a count of zero cannot be set.
  lemma GetThenSet(hz: int, ticks: nat)
    requires 1 <= hz <= SECOND
    ensures var t := GetTime(hz, ticks);
            SetTime(hz, t.0, t.1) == if ticks == 0 then None else Some(ticks)
  {
    var sec, rest, tick := ticks / hz, ticks % hz, SECOND / hz;
    assert ticks == sec * hz + rest;
    RoundUpExact(rest, tick);
    Order(0, sec, hz);
    Order(0, rest, tick);
  }

  // A time set is its seconds, each HZ ticks, and the fewest ticks that are not
  // shorter than its microseconds.
  lemma FewestTicks(hz: int, sec: int, usec: int)
    requires 1 <= hz <= 1000000 && SetTime(hz, sec, usec).Some?
    ensures var n, tick := SetTime(hz, sec, usec).value - sec * hz, 1000000 / hz;
            n >= 0 && n * tick < usec + tick && usec <= n * tick
  {
    RoundUpBounds(usec, SECOND / hz);
  }

  // A time read is the whole seconds in the count, and what is left of it in ticks
  // of so many microseconds.
  lemma ReadInTicks(hz: int, ticks: nat)
    requires 1 <= hz <= 1000000
    ensures var t := GetTime(hz, ticks);
            0 <= ticks - t.0 * hz < hz && t.1 == (ticks - t.0 * hz) * (1000000 / hz)
  {
    assert ticks == ticks / hz * hz + ticks % hz;
  }

  // Only a zero timeout and negative numbers are refused.
  lemma Refused(hz: int, sec: int, usec: int)
    requires 1 <= hz <= SECOND
    ensures SetTime(hz, sec, usec) == None <==> sec < 0 || usec < 0 || (sec == 0 && usec == 0)
  {
    if sec >= 0 && usec >= 0 {
      RoundUpZero(usec, SECOND / hz);
      Order(1, sec, hz);
    }
  }

  // What setting a time and reading it back adds, in microseconds
  function Added(hz: int, sec: int, usec: int): int
    requires 1 <= hz <= SECOND && SetTime(hz, sec, usec).Some?
  {
    Micros(GetTime(hz, SetTime(hz, sec, usec).value)) - Micros((sec, usec))
  }

  // n ticks made of s whole seconds and some more read back as that many seconds
  // more, each as long as HZ short ticks and what HZ leaves of a second.
  lemma ReadBack(hz: int, sec: nat, n: nat)
    requires 1 <= hz <= SECOND
    ensures Micros(GetTime(hz, n + sec * hz)) == sec * SECOND + n * (SECOND / hz) + n / hz * (SECOND % hz)
  {
    var tick := SECOND / hz;
    assert SECOND == hz * tick + SECOND % hz;
    Whole(n, sec, hz);
    assert n == n / hz * hz + n % hz;
    calc {
      Micros(GetTime(hz, n + sec * hz));
      (sec + n / hz) * SECOND + n % hz * tick;
      sec * SECOND + n / hz * SECOND + n % hz * tick;
      { assert n / hz * SECOND == n / hz * (hz * tick) + n / hz * (SECOND % hz); }
      sec * SECOND + n / hz * (hz * tick) + n / hz * (SECOND % hz) + n % hz * tick;
      { assert n / hz * (hz * tick) == (n / hz * hz) * tick; }
      { assert n * tick == (n / hz * hz + n % hz) * tick == (n / hz * hz) * tick + n % hz * tick; }
      sec * SECOND + n * tick + n / hz * (SECOND % hz);
    }
  }

  lemma Whole(n: nat, sec: nat, hz: int)
    requires hz > 0
    ensures (n + sec * hz) / hz == sec + n / hz && (n + sec * hz) % hz == n % hz
  {
    var q, r := n / hz, n % hz;
    assert n + sec * hz == (sec + q) * hz + r;
    DivMod(sec + q, hz, r);
  }

  // Setting a time and reading it back adds what rounding up adds, and what HZ
  // leaves of each whole second's worth of microseconds.
  lemma AddedIs(hz: int, sec: nat, usec: nat)
    requires 1 <= hz <= SECOND && SetTime(hz, sec, usec).Some?
    ensures var n := RoundUp(usec, SECOND / hz);
            Added(hz, sec, usec) == n * (SECOND / hz) - usec + n / hz * (SECOND % hz)
  {
    var n := RoundUp(usec, SECOND / hz);
    RoundUpBounds(usec, SECOND / hz);
    ReadBack(hz, sec, n);
  }

  // A time read back is never shorter than the one set.
  lemma NeverShorter(hz: int, sec: int, usec: int)
    requires 1 <= hz <= SECOND && SetTime(hz, sec, usec).Some?
    ensures Added(hz, sec, usec) >= 0
  {
    var n := RoundUp(usec, SECOND / hz);
    RoundUpBounds(usec, SECOND / hz);
    AddedIs(hz, sec, usec);
    Leftover(n, hz);
  }

  lemma Leftover(n: nat, hz: int)
    requires hz > 0
    ensures n / hz * (SECOND % hz) >= 0
  {}

  predicate WithinOneTick(hz: int, sec: int, usec: int)
    requires 1 <= hz <= SECOND && SetTime(hz, sec, usec).Some?
  {
    0 <= Added(hz, sec, usec) && Added(hz, sec, usec) * hz < SECOND
  }

  lemma DividingIsClose(hz: int, sec: int, usec: int)
    requires 1 <= hz <= SECOND && SECOND % hz == 0 && SetTime(hz, sec, usec).Some?
    ensures WithinOneTick(hz, sec, usec)
  {}

  // A million short seconds, as microseconds, drift by a million times what HZ
  // leaves of a second.
  lemma OtherwiseFar(hz: int)
    requires 1 <= hz <= SECOND && SECOND % hz != 0
    ensures var usec := SECOND * hz * (SECOND / hz);
            SetTime(hz, 0, usec).Some? && !WithinOneTick(hz, 0, usec)
  {
    var tick := SECOND / hz;
    var n := SECOND * hz;
    RoundUpExact(n, tick);
    AddedIs(hz, 0, n * tick);
    DivMod(SECOND, hz, 0);
    assert n / hz == SECOND;
    assert Added(hz, 0, n * tick) == SECOND * (SECOND % hz);
  }

  // Reading back adds less than one tick, for every time that can be set, exactly
  // when HZ divides a second.
  lemma SetThenGet(hz: int)
    requires 1 <= hz <= SECOND
    ensures (forall sec, usec :: SetTime(hz, sec, usec).Some? ==> WithinOneTick(hz, sec, usec)) <==> SECOND % hz == 0
  {
    if SECOND % hz == 0 {
      forall sec, usec | SetTime(hz, sec, usec).Some? ensures WithinOneTick(hz, sec, usec) {
        DividingIsClose(hz, sec, usec);
      }
    } else {
      OtherwiseFar(hz);
    }
  }
}
