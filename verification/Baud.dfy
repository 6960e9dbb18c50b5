// Line speed: from termios to the UART's divisor (driver/snx_serial.c).

module Baud {
  import opened Options

  datatype Rate =
    | B0 | B50 | B75 | B110 | B134 | B150 | B200 | B300 | B600 | B1200 | B1800 | B2400
    | B4800 | B9600 | B19200 | B38400 | B57600 | B115200 | B230400 | B460800 | B921600
    | Other

  function Speed(r: Rate): nat {
    match r
    case B921600 => 921600
    case B460800 => 460800
    case B230400 => 230400
    case B115200 => 115200
    case B57600 => 57600
    case B38400 => 38400
    case B19200 => 19200
    case B9600 => 9600
    case B4800 => 4800
    case B2400 => 2400
    case B1800 => 1800
    case B1200 => 1200
    case B600 => 600
    case B300 => 300
    case B200 => 200
    case B150 => 150
    case B134 => 134
    case B110 => 110
    case B75 => 75
    case B50 => 50
    case _ => 9600
  }

  // Every rate is the number in its name; B0 and what is not in the table count as 9600.
  lemma RateNumbers()
    ensures [Speed(B50), Speed(B75), Speed(B110), Speed(B134), Speed(B150), Speed(B200), Speed(B300), Speed(B600)]
              == [50, 75, 110, 134, 150, 200, 300, 600]
    ensures [Speed(B1200), Speed(B1800), Speed(B2400), Speed(B4800), Speed(B9600), Speed(B19200), Speed(B38400)]
              == [1200, 1800, 2400, 4800, 9600, 19200, 38400]
    ensures [Speed(B57600), Speed(B115200), Speed(B230400), Speed(B460800), Speed(B921600)]
              == [57600, 115200, 230400, 460800, 921600]
    ensures Speed(B0) == Speed(Other) == 9600
  {}

  // The setserial speed bits (SNX_UPF_SPD_MASK).
  const SPD_HI: nat := 0x0010
  const SPD_VHI: nat := 0x0020
  const SPD_CUST: nat := 0x0030
  const SPD_SHI: nat := 0x1000
  const SPD_WARP: nat := 0x1010

  datatype Clock = Clock(
    uartclk: nat,            // 16 times the base rate
    spd: nat,                // the setserial speed bits
    setserial: bool,         // setserial_flag
    magic: bool,             // SNX_UPF_MAGIC_MULTIPLIER
    customDivisor: nat)

  function AltSpeed(spd: nat): nat {
    if spd == SPD_HI then 57600
    else if spd == SPD_VHI then 115200
    else if spd == SPD_SHI then 230400
    else if spd == SPD_WARP then 460800
    else 38400
  }

  // The rate one round of the negotiation proposes.
  function Proposal(c: Clock, r: Rate): nat {
    if c.setserial || c.spd != 0 then AltSpeed(c.spd) else Speed(r)
  }

  function Fallback(previous: Option<Rate>): Rate {
    if previous.Some? then previous.value else B9600
  }

  // snx_ser_get_baud_rate: the requested rate, else the previous one (or 9600),
  // else 0; requested is what termios is left with.
  method GetBaudRate(c: Clock, requested: Rate, previous: Option<Rate>, min: nat, max: nat)
      returns (baud: nat, granted: Rate)
    ensures min <= Proposal(c, requested) <= max ==> baud == Proposal(c, requested) && granted == requested
    ensures !(min <= Proposal(c, requested) <= max) && min <= Proposal(c, Fallback(previous)) <= max ==>
              baud == Proposal(c, Fallback(previous)) && granted == Fallback(previous)
    ensures baud == 0 <==> !(min <= Proposal(c, requested) <= max) && !(min <= Proposal(c, Fallback(previous)) <= max)
    ensures baud == 0 ==> granted == B9600
  {
    granted := requested;
    var old_ := previous;
    for try := 0 to 2
      invariant try == 0 ==> granted == requested && old_ == previous
      invariant try == 1 ==> granted == Fallback(previous) && !(min <= Proposal(c, requested) <= max)
      invariant try >= 1 ==> old_ == None
      invariant try == 2 ==> granted == B9600
      invariant try == 2 ==> !(min <= Proposal(c, requested) <= max) && !(min <= Proposal(c, Fallback(previous)) <= max)
    {
      var altbaud := 38400;
      if c.setserial || c.spd != 0 {
        altbaud := AltSpeed(c.spd);
      } else {
        altbaud := Speed(granted);
      }
      baud := altbaud;
      if baud >= min && baud <= max {
        return;
      }
      granted := B0;
      if old_.Some? {
        granted := old_.value;
        old_ := None;
        continue;
      }
      granted := B9600;
    }
    baud := 0;
  }

  // sunix_ser_get_divisor.  The source divides by the rate, so it needs one.
  function Divisor(c: Clock, baud: nat): nat
    requires baud > 0
  {
    if c.magic && baud == c.uartclk / 4 then 0x8001
    else if c.magic && baud == c.uartclk / 8 then 0x8002
    else if baud == 38400 && c.spd == SPD_CUST then c.customDivisor
    else c.uartclk / (16 * baud)
  }

  // The special cases of the setserial speeds and divisors, in numbers.
  lemma SetserialNumbers(c: Clock)
    ensures [AltSpeed(0x0010), AltSpeed(0x0020), AltSpeed(0x1000), AltSpeed(0x1010)] == [57600, 115200, 230400, 460800]
    ensures forall spd :: spd !in {0x0010, 0x0020, 0x1000, 0x1010} ==> AltSpeed(spd) == 38400
    ensures c.spd == 0x0030 && !c.magic ==> Divisor(c, 38400) == c.customDivisor
    ensures c.magic && c.uartclk >= 8 ==> Divisor(c, c.uartclk / 4) == 0x8001 && Divisor(c, c.uartclk / 8) == 0x8002
  {}

  // With a base rate that covers every table entry, the requested rate is granted.
  lemma EveryRateIsGranted(c: Clock, r: Rate)
    requires c.uartclk / 16 >= 921600
    ensures 0 < Proposal(c, r) <= c.uartclk / 16
    ensures !c.setserial && c.spd == 0 ==> RateFound(c, r, None) == Speed(r)
    ensures c.setserial || c.spd != 0 ==> RateFound(c, r, None) == AltSpeed(c.spd)
  {}

  lemma FloorOfFloor(clk: nat, baud: nat, q: nat)
    requires baud > 0 && q == clk / (16 * baud)
    ensures q * baud <= clk / 16 < (q + 1) * baud
  {}

  // The divisor is the best one not exceeding the base rate, at least 1, and the
  // magic multipliers never apply.
  lemma DivisorBrackets(c: Clock, r: Rate)
    requires c.uartclk / 16 >= 921600 && c.spd != SPD_CUST
    ensures 0 < Proposal(c, r)
    ensures var baud := Proposal(c, r); var q := Divisor(c, baud);
            q >= 1 && q * baud <= c.uartclk / 16 < (q + 1) * baud
  {
    var baud := Proposal(c, r);
    var q := c.uartclk / (16 * baud);
    assert baud <= 921600;
    FloorOfFloor(c.uartclk, baud, q);
  }

  // The negotiation can fail to find a rate: exactly when neither the request nor
  // what it falls back to is within the base rate.  Then the source divides by 0.
  predicate HasRate(c: Clock, r: Rate, previous: Option<Rate>) {
    Proposal(c, r) <= c.uartclk / 16 || Proposal(c, Fallback(previous)) <= c.uartclk / 16
  }

  // The rate it finds otherwise: the one asked for, or else what it falls back to
  function RateFound(c: Clock, r: Rate, previous: Option<Rate>): (baud: nat)
    requires HasRate(c, r, previous)
    ensures 0 < baud <= c.uartclk / 16
  {
    if Proposal(c, r) <= c.uartclk / 16 then Proposal(c, r) else Proposal(c, Fallback(previous))
  }

  // A setserial speed above a low base rate leaves none.
  lemma RateCanBeMissing()
    ensures !HasRate(Clock(115200 * 16, SPD_WARP, false, false, 0), B9600, Some(B9600))
  {}
}
