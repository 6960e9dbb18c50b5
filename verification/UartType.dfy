// The line type (RS-232, RS-422, RS-485) and slew-rate (ACS) settings of a card's
// ports (driver/snx_serial.c).  Four ports share each block of configuration
// registers, one bit of every nibble each.

module UartTypes {

  // The bits a port owns in its block's AHDC, RS-422, GPIO and GPIO-control
  // registers.
  datatype PortBits = PortBits(ahdc: bool, ahdcHigh: bool, rs422: bool, acs: bool,
                               gpio: bool, gpioHigh: bool, control: bool)

  // The driver's own copies of a port's type bits, and its modem control register.
  datatype Soft = Soft(ahdc: bool, rs422: bool, mcr: bv8)

  datatype PortCfg = PortCfg(bits: PortBits, soft: Soft)

  predicate Supports(kind: int, t: int) {
    (kind == 0 && t == 0) || (kind == 1 && 1 <= t <= 3) || (kind == 2 && 0 <= t <= 3)
  }

  // SET_TYPE on a port's bits: a type the card does not support clears them.
  function TypedBits(p: PortBits, kind: int, t: int): PortBits {
    if Supports(kind, t) then
      PortBits(t >= 2, p.ahdcHigh || kind == 1, t % 2 == 1, p.acs && t >= 2, t == 0, false, true)
    else p.(ahdc := false, rs422 := false, gpio := false, gpioHigh := false, control := false)
  }

  // The driver's copies follow supported types only; RS-422 and RS-485 without echo
  // raise DTR and RTS.
  function Typed(p: PortCfg, kind: int, t: int): PortCfg {
    if Supports(kind, t) then
      PortCfg(TypedBits(p.bits, kind, t),
              Soft(t >= 2, t % 2 == 1, if t == 1 || t == 2 then (p.soft.mcr & 0xFC) | 0x03 else p.soft.mcr))
    else p.(bits := TypedBits(p.bits, kind, t))
  }

  // SET_ACS
  function AcsSet(p: PortCfg, on: bool): PortCfg {
    p.(bits := p.bits.(acs := on))
  }

  // GET_TYPE: the caller's own value comes back where the code sets none.
  function TypeOf(p: PortBits, kind: int, given: int): int {
    if kind == 0 then 0
    else if kind == 1 || kind == 2 then
      if p.ahdc && p.rs422 then 3
      else if p.ahdc then 2
      else if p.rs422 then 1
      else if kind == 1 then -1 else 0
    else given
  }

  // ---- Register bits ----

  // 0x01 << ((num - 1) % 4)
  function Bit(num: int): bv8 {
    var i := (num - 1) % 4;
    if i == 0 then 1 else if i == 1 then 2 else if i == 2 then 4 else 8
  }

  predicate Low(r: bv8, num: int) {
    r & Bit(num) != 0
  }

  predicate High(r: bv8, num: int) {
    r & (Bit(num) << 4) != 0
  }

  // Two ports with the same bits in their blocks.
  predicate Same(num: int, other: int) {
    (num - 1) % 4 == (other - 1) % 4
  }

  lemma LowBits(r: bv8, num: int)
    ensures forall o :: Low(r | Bit(num), o) <==> Low(r, o) || Same(num, o)
    ensures forall o :: Low(r & !Bit(num), o) <==> Low(r, o) && !Same(num, o)
    ensures forall o :: High(r | Bit(num), o) <==> High(r, o)
    ensures forall o :: High(r & !Bit(num), o) <==> High(r, o)
  {}

  lemma HighBits(r: bv8, num: int)
    ensures forall o :: High(r | (Bit(num) << 4), o) <==> High(r, o) || Same(num, o)
    ensures forall o :: High(r & !(Bit(num) << 4), o) <==> High(r, o) && !Same(num, o)
    ensures forall o :: Low(r | (Bit(num) << 4), o) <==> Low(r, o)
    ensures forall o :: Low(r & !(Bit(num) << 4), o) <==> Low(r, o)
  {}

  method SetLow(r: bv8, num: int) returns (s: bv8)
    ensures forall o {:trigger Low(s, o)} :: Low(s, o) <==> Low(r, o) || Same(num, o)
    ensures forall o {:trigger High(s, o)} :: High(s, o) <==> High(r, o)
  {
    LowBits(r, num);
    s := r | Bit(num);
  }

  method ClearLow(r: bv8, num: int) returns (s: bv8)
    ensures forall o {:trigger Low(s, o)} :: Low(s, o) <==> Low(r, o) && !Same(num, o)
    ensures forall o {:trigger High(s, o)} :: High(s, o) <==> High(r, o)
  {
    LowBits(r, num);
    s := r & !Bit(num);
  }

  method SetHigh(r: bv8, num: int) returns (s: bv8)
    ensures forall o {:trigger Low(s, o)} :: Low(s, o) <==> Low(r, o)
    ensures forall o {:trigger High(s, o)} :: High(s, o) <==> High(r, o) || Same(num, o)
  {
    HighBits(r, num);
    s := r | (Bit(num) << 4);
  }

  method ClearHigh(r: bv8, num: int) returns (s: bv8)
    ensures forall o {:trigger Low(s, o)} :: Low(s, o) <==> Low(r, o)
    ensures forall o {:trigger High(s, o)} :: High(s, o) <==> High(r, o) && !Same(num, o)
  {
    HighBits(r, num);
    s := r & !(Bit(num) << 4);
  }

  // The four bytes of one block.
  datatype Bytes = Bytes(ahdc: bv8, rs422: bv8, gpio: bv8, control: bv8)

  // The bits port o owns in its block's bytes.
  function BitsOf(b: Bytes, o: int): PortBits {
    PortBits(Low(b.ahdc, o), High(b.ahdc, o), High(b.rs422, o), Low(b.rs422, o),
             Low(b.gpio, o), High(b.gpio, o), Low(b.control, o))
  }

  // What SET_TYPE clears before it looks at the type
  method Cleared(b: Bytes, num: int) returns (n: Bytes)
    ensures forall o :: BitsOf(n, o) ==
              if Same(num, o) then BitsOf(b, o).(ahdc := false, rs422 := false, gpio := false, gpioHigh := false, control := false)
              else BitsOf(b, o)
  {
    var ahdc := ClearLow(b.ahdc, num);
    var rs422 := ClearHigh(b.rs422, num);
    var gpio := ClearLow(b.gpio, num);
    gpio := ClearHigh(gpio, num);
    var control := ClearLow(b.control, num);
    n := Bytes(ahdc, rs422, gpio, control);
  }

  // Type 0
  method Rs232(b: Bytes, num: int) returns (n: Bytes)
    ensures forall o :: BitsOf(n, o) == if Same(num, o) then BitsOf(b, o).(ahdc := false, rs422 := false, acs := false, gpio := true, control := true) else BitsOf(b, o)
  {
    var ahdc := ClearLow(b.ahdc, num);
    var rs422 := ClearHigh(b.rs422, num);
    rs422 := ClearLow(rs422, num);
    var gpio := SetLow(b.gpio, num);
    var control := SetLow(b.control, num);
    n := Bytes(ahdc, rs422, gpio, control);
  }

  // Type 1
  method Rs422(b: Bytes, num: int, high: bool) returns (n: Bytes)
    ensures forall o :: BitsOf(n, o) == if Same(num, o) then BitsOf(b, o).(ahdc := false, ahdcHigh := BitsOf(b, o).ahdcHigh || high, rs422 := true, acs := false, gpio := false, control := true) else BitsOf(b, o)
  {
    var ahdc := b.ahdc;
    if high {
      ahdc := SetHigh(ahdc, num);
    }
    ahdc := ClearLow(ahdc, num);
    var rs422 := SetHigh(b.rs422, num);
    rs422 := ClearLow(rs422, num);
    var gpio := ClearLow(b.gpio, num);
    var control := SetLow(b.control, num);
    n := Bytes(ahdc, rs422, gpio, control);
  }

  // Types 2 and 3
  method Rs485(b: Bytes, num: int, high: bool, echo: bool) returns (n: Bytes)
    ensures forall o :: BitsOf(n, o) == if Same(num, o) then BitsOf(b, o).(ahdc := true, ahdcHigh := BitsOf(b, o).ahdcHigh || high, rs422 := echo, gpio := false, control := true) else BitsOf(b, o)
  {
    var ahdc := SetLow(b.ahdc, num);
    if high {
      ahdc := SetHigh(ahdc, num);
    }
    var rs422 := b.rs422;
    if echo {
      rs422 := SetHigh(rs422, num);
    } else {
      rs422 := ClearHigh(rs422, num);
    }
    var gpio := ClearLow(b.gpio, num);
    var control := SetLow(b.control, num);
    n := Bytes(ahdc, rs422, gpio, control);
  }

  // SET_TYPE on one block: done says whether one of its branches ran.
  method TypeBytes(b: Bytes, kind: int, num: int, t: int) returns (n: Bytes, done: bool)
    ensures done <==> Supports(kind, t)
    ensures forall o :: BitsOf(n, o) == if Same(num, o) then TypedBits(BitsOf(b, o), kind, t) else BitsOf(b, o)
  {
    n := Cleared(b, num);
    done := true;
    if kind == 0 && t == 0 {
      n := Rs232(n, num);
    } else if kind == 1 && (t == 3 || t == 2) {
      n := Rs485(n, num, true, t == 3);
    } else if kind == 1 && t == 1 {
      n := Rs422(n, num, true);
    } else if kind == 2 && (t == 3 || t == 2) {
      n := Rs485(n, num, false, t == 3);
    } else if kind == 2 && t == 1 {
      n := Rs422(n, num, false);
    } else if kind == 2 && t == 0 {
      n := Rs232(n, num);
    } else {
      done := false;
    }
  }

  // SET_ACS on one block
  method AcsByte(b: Bytes, num: int, on: bool) returns (n: Bytes)
    ensures forall o :: BitsOf(n, o) == if Same(num, o) then BitsOf(b, o).(acs := on) else BitsOf(b, o)
  {
    var r := ClearLow(b.rs422, num);
    if on {
      r := SetLow(r, num);
    }
    n := b.(rs422 := r);
  }

  // The top two bits
  function KindOf(b: bv8): int {
    if b & 0xC0 == 0x00 then 0 else if b & 0xC0 == 0x40 then 1 else if b & 0xC0 == 0x80 then 2 else 3
  }

  // The switch of GET_TYPE
  method Decode(kind: int, ahdc: bool, rs422: bool, given: int) returns (t: int)
    ensures forall p: PortBits :: p.ahdc == ahdc && p.rs422 == rs422 ==> t == TypeOf(p, kind, given)
  {
    t := given;
    if kind == 0 {
      t := 0;
    } else if kind == 1 {
      t := if ahdc && rs422 then 3 else if ahdc && !rs422 then 2 else if !ahdc && rs422 then 1 else -1;
    } else if kind == 2 {
      t := if ahdc && rs422 then 3 else if ahdc && !rs422 then 2 else if !ahdc && rs422 then 1 else 0;
    }
  }

  // The weight of a port's bit in the low and in the high nibble of its registers.
  function Weight(num: int): (bv8, bv8) {
    match (num - 1) % 4
    case 0 => (0x01, 0x10)
    case 1 => (0x02, 0x20)
    case 2 => (0x04, 0x40)
    case _ => (0x08, 0x80)
  }

  // Which bit of which register is whose, in numbers.
  lemma BitsInNumbers(b: Bytes, num: int, low: bv8, high: bv8)
    requires (low, high) == Weight(num)
    ensures BitsOf(b, num) == PortBits(b.ahdc & low != 0, b.ahdc & high != 0, b.rs422 & high != 0, b.rs422 & low != 0,
                                       b.gpio & low != 0, b.gpio & high != 0, b.control & low != 0)
  {}

  // What the types are: 0 is RS-232, 1 RS-422, 2 RS-485, 3 RS-485 with echo.  A card
  // of kind 0 has only the first, one of kind 1 all but it.
  lemma TypesInNumbers(p: PortCfg, kind: int, t: int)
    requires Supports(kind, t)
    ensures 0 <= kind <= 2 && 0 <= t <= 3 && (kind == 0 ==> t == 0) && (kind == 1 ==> t != 0)
    ensures var q := Typed(p, kind, t).bits;
            && (q.ahdc, q.rs422) == (match t case 0 => (false, false) case 1 => (false, true) case 2 => (true, false)
                                             case _ => (true, true))
            && q.gpio == (t == 0) && !q.gpioHigh && q.control && q.ahdcHigh == (p.bits.ahdcHigh || kind == 1)
            && q.acs == if t == 0 || t == 1 then false else p.bits.acs
    ensures var m := Typed(p, kind, t).soft;
            && m.ahdc == (t == 2 || t == 3) && m.rs422 == (t == 1 || t == 3) && m.mcr & 0xFC == p.soft.mcr & 0xFC
            && m.mcr & 0x03 == if t == 1 || t == 2 then 0x03 else p.soft.mcr & 0x03
  {}

  // ---- The card ----

  const AHDC: int := 0x02
  const RS422: int := 0x03
  const GPIO: int := 0x0C
  const CONTROL: int := 0x0D

  const PORTS: int := 16

  // Ports 1..16 by number.
  datatype Config = Config(kind: int, ports: map<int, PortCfg>)

  // A card's configuration registers, in two I/O windows, and the driver's ports.
  class Card {
    const bar1: array<bv8>
    const bar3: array<bv8>
    var soft: seq<Soft>

    ghost predicate Valid()
      reads `soft
    {
      bar1.Length == 0x100 && bar3.Length == 0x10 && bar1 != bar3 && |soft| == PORTS
    }

    // Where the block of a port lies in the second window; the first block is in
    // the other.
    function Base(num: int): int {
      if num <= 8 then 0x30 else if num <= 12 then 0x30 + 0x40 else 0x30 + 0x80
    }

    function In(num: int, reg: int): bv8
      requires Valid() && 0 <= reg < 0x10
      reads `soft, bar1, bar3
    {
      if num <= 4 then bar3[reg] else bar1[Base(num) + reg]
    }

    // The block's bytes
    function Block(num: int): Bytes
      requires Valid()
      reads `soft, bar1, bar3
    {
      Bytes(In(num, AHDC), In(num, RS422), In(num, GPIO), In(num, CONTROL))
    }

    function Kind(): int
      requires Valid()
      reads `soft, bar3
    {
      KindOf(bar3[5])
    }

    ghost function BitsAt(num: int): PortBits
      requires Valid()
      reads `soft, bar1, bar3
    {
      BitsOf(Block(num), num)
    }

    ghost function PortAt(num: int): PortCfg
      requires Valid() && 1 <= num <= PORTS
      reads this, bar1, bar3
    {
      PortCfg(BitsAt(num), soft[num - 1])
    }

    ghost function Settings(): Config
      requires Valid()
      reads this, bar1, bar3
    {
      Config(Kind(), map k | 1 <= k <= PORTS :: PortAt(k))
    }

    // Where the registers of the four blocks are, in numbers.
    lemma BlocksInNumbers(num: int)
      requires Valid() && 1 <= num <= 16
      ensures Block(num) == if num <= 4 then Bytes(bar3[0x02], bar3[0x03], bar3[0x0C], bar3[0x0D])
                            else if num <= 8 then Bytes(bar1[0x32], bar1[0x33], bar1[0x3C], bar1[0x3D])
                            else if num <= 12 then Bytes(bar1[0x72], bar1[0x73], bar1[0x7C], bar1[0x7D])
                            else Bytes(bar1[0xB2], bar1[0xB3], bar1[0xBC], bar1[0xBD])
      ensures Kind() == match bar3[0x05] & 0xC0 case 0x00 => 0 case 0x40 => 1 case 0x80 => 2 case _ => 3
    {}

    method OutBlock(num: int, b: Bytes)
      requires Valid() && 1 <= num <= PORTS
      modifies bar1, bar3
      ensures Kind() == old(Kind())
      ensures forall k :: 1 <= k <= PORTS ==>
                Block(k) == if (k - 1) / 4 == (num - 1) / 4 then b else old(Block(k))
    {
      if num <= 4 {
        bar3[AHDC], bar3[RS422], bar3[GPIO], bar3[CONTROL] := b.ahdc, b.rs422, b.gpio, b.control;
      } else {
        var base := Base(num);
        bar1[base + AHDC], bar1[base + RS422], bar1[base + GPIO], bar1[base + CONTROL] := b.ahdc, b.rs422, b.gpio, b.control;
      }
    }

    // One port's new bits go out with its block; no other port's change.
    method OutBits(num: int, b: Bytes, ghost p: PortBits)
      requires Valid() && 1 <= num <= PORTS
      requires BitsOf(b, num) == p && forall o :: !Same(num, o) ==> BitsOf(b, o) == BitsOf(Block(num), o)
      modifies bar1, bar3
      ensures Kind() == old(Kind())
      ensures forall k :: 1 <= k <= PORTS ==> BitsAt(k) == if k == num then p else old(BitsAt(k))
    {
      OutBlock(num, b);
      forall k | 1 <= k <= PORTS ensures BitsAt(k) == if k == num then p else old(BitsAt(k)) {
        if (k - 1) / 4 == (num - 1) / 4 {
          assert Same(num, k) <==> k == num;
          assert Block(k) == b && old(Block(k)) == old(Block(num));
        }
      }
    }

    method SetCopies(num: int, t: int)
      requires Valid() && 1 <= num <= PORTS
      modifies this`soft
      ensures Valid() && soft == old(soft)[num - 1 := Soft(t == 2 || t == 3, t == 1 || t == 3,
                if t == 1 || t == 2 then (old(soft)[num - 1].mcr & 0xFC) | 0x03 else old(soft)[num - 1].mcr)]
    {
      if t == 1 || t == 2 {
        soft := soft[num - 1 := soft[num - 1].(mcr := (soft[num - 1].mcr & 0xFC) | 0x03)];
      }
      soft := soft[num - 1 := soft[num - 1].(ahdc := t == 2 || t == 3, rs422 := t == 1 || t == 3)];
    }

    lemma SettingsAre(c: Config, num: int, p: PortCfg)
      requires Valid() && 1 <= num <= PORTS && Kind() == c.kind
      requires forall k :: k in c.ports <==> 1 <= k <= PORTS
      requires forall k :: 1 <= k <= PORTS ==> PortAt(k) == if k == num then p else c.ports[k]
      ensures Settings() == Config(c.kind, c.ports[num := p])
    {}

    method SetType(num: int, t: int)
      requires Valid() && 1 <= num <= PORTS
      modifies this`soft, bar1, bar3
      ensures Valid() && Settings() == Config(old(Settings()).kind,
                old(Settings()).ports[num := Typed(old(PortAt(num)), old(Kind()), t)])
    {
      ghost var p := TypedBits(BitsAt(num), Kind(), t);
      var b, done := TypeBytes(Block(num), Kind(), num, t);
      if done {
        SetCopies(num, t);
      }
      OutBits(num, b, p);
      SettingsAre(old(Settings()), num, Typed(old(PortAt(num)), old(Kind()), t));
    }

    method GetType(num: int, given: int) returns (t: int)
      requires Valid() && 1 <= num
      ensures t == if num <= PORTS then TypeOf(PortAt(num).bits, Kind(), given) else given
    {
      t := given;
      if num <= PORTS {
        var ahdc := Low(In(num, AHDC), num);
        var rs422 := High(In(num, RS422), num);
        t := Decode(Kind(), ahdc, rs422, given);
      }
    }

    method SetAcs(num: int, on: bool)
      requires Valid() && 1 <= num <= PORTS
      modifies bar1, bar3
      ensures Settings() == Config(old(Settings()).kind, old(Settings()).ports[num := AcsSet(old(PortAt(num)), on)])
    {
      var b := AcsByte(Block(num), num, on);
      OutBits(num, b, BitsAt(num).(acs := on));
      SettingsAre(old(Settings()), num, AcsSet(old(PortAt(num)), on));
    }

    method GetAcs(num: int) returns (on: bool)
      requires Valid() && 1 <= num <= PORTS
      ensures on == PortAt(num).bits.acs
    {
      on := Low(In(num, RS422), num);
    }
  }

  // ---- Runs of settings ----

  datatype Op = Type(num: int, t: int) | Acs(num: int, on: bool)

  predicate OnCard(ops: seq<Op>) {
    forall i :: 0 <= i < |ops| ==> 1 <= ops[i].num <= PORTS
  }

  predicate Complete(c: Config) {
    forall k :: 1 <= k <= PORTS ==> k in c.ports
  }

  function Step(c: Config, op: Op): Config
    requires op.num in c.ports
  {
    var p := c.ports[op.num];
    c.(ports := c.ports[op.num := if op.Type? then Typed(p, c.kind, op.t) else AcsSet(p, op.on)])
  }

  function Run(c: Config, ops: seq<Op>): (r: Config)
    requires Complete(c) && OnCard(ops)
    ensures Complete(r) && r.kind == c.kind
    decreases |ops|
  {
    if ops == [] then c else Run(Step(c, ops[0]), ops[1..])
  }

  function GetType(c: Config, num: int, given: int): int
    requires num in c.ports
  {
    TypeOf(c.ports[num].bits, c.kind, given)
  }

  // A setting of one port changes nothing that belongs to another.
  lemma {:induction false} Isolation(c: Config, ops: seq<Op>, num: int)
    requires Complete(c) && OnCard(ops) && 1 <= num <= PORTS
    requires forall i :: 0 <= i < |ops| ==> ops[i].num != num
    ensures Run(c, ops).ports[num] == c.ports[num]
    decreases |ops|
  {
    if ops == [] {
    } else {
      Isolation(Step(c, ops[0]), ops[1..], num);
    }
  }

  // The type asked for last on a port, and the last one its card supports.
  function LastType(k: int, ops: seq<Op>, num: int, kind: int, supported: bool): int
    decreases |ops|
  {
    if ops == [] then k
    else
      var hit := ops[0].Type? && ops[0].num == num && (supported ==> Supports(kind, ops[0].t));
      LastType(if hit then ops[0].t else k, ops[1..], num, kind, supported)
  }

  // What GET_TYPE makes of a type the port was set to.
  function Seen(kind: int, t: int, given: int): int {
    if Supports(kind, t) then t
    else if kind == 1 then -1
    else if kind == 0 || kind == 2 then 0
    else given
  }

  lemma TypedReads(p: PortCfg, kind: int, t: int, given: int)
    ensures TypeOf(Typed(p, kind, t).bits, kind, given) == Seen(kind, t, given)
  {}

  // Over any run, GET_TYPE gives what the last SET_TYPE of that very port makes of
  // the port, whatever was done to the others.
  lemma {:induction false} LastSetWins(c: Config, ops: seq<Op>, num: int, given: int, k: int)
    requires Complete(c) && OnCard(ops) && 1 <= num <= PORTS
    requires GetType(c, num, given) == Seen(c.kind, k, given)
    ensures GetType(Run(c, ops), num, given) == Seen(c.kind, LastType(k, ops, num, c.kind, false), given)
    decreases |ops|
  {
    if ops == [] {
    } else {
      var op := ops[0];
      var next := if op.Type? && op.num == num then op.t else k;
      if op.Type? {
        TypedReads(c.ports[op.num], c.kind, op.t, given);
      }
      LastSetWins(Step(c, op), ops[1..], num, given, next);
    }
  }

  lemma {:induction false} LastSupportedIsSupported(k: int, ops: seq<Op>, num: int, kind: int)
    requires Supports(kind, k)
    ensures Supports(kind, LastType(k, ops, num, kind, true))
    decreases |ops|
  {
    if ops == [] {
    } else {
      var op := ops[0];
      LastSupportedIsSupported(if op.Type? && op.num == num && Supports(kind, op.t) then op.t else k, ops[1..], num, kind);
    }
  }

  lemma {:induction false} LastIsLastSupported(k: int, m: int, ops: seq<Op>, num: int, kind: int)
    requires Supports(kind, k) ==> m == k
    ensures var last := LastType(k, ops, num, kind, false);
            Supports(kind, last) ==> last == LastType(m, ops, num, kind, true)
    decreases |ops|
  {
    if ops == [] {
    } else {
      var op := ops[0];
      var hit := op.Type? && op.num == num;
      LastIsLastSupported(if hit then op.t else k, if hit && Supports(kind, op.t) then op.t else m, ops[1..], num, kind);
    }
  }

  // GET_TYPE returns the last type the card supports exactly when no unsupported
  // type was asked for after it, or an unsupported one reads as that type: RS-232,
  // on the two kinds that have it.
  lemma SupportedTypeRoundTrip(c: Config, ops: seq<Op>, num: int, given: int, k: int)
    requires Complete(c) && OnCard(ops) && 1 <= num <= PORTS
    requires Supports(c.kind, k) && GetType(c, num, given) == k
    ensures var last := LastType(k, ops, num, c.kind, false);
            var supported := LastType(k, ops, num, c.kind, true);
            GetType(Run(c, ops), num, given) == supported <==> Supports(c.kind, last) || (c.kind != 1 && supported == 0)
  {
    LastSetWins(c, ops, num, given, k);
    LastSupportedIsSupported(k, ops, num, c.kind);
    LastIsLastSupported(k, k, ops, num, c.kind);
  }

  // The slew-rate bit is the one last asked for, except that going to RS-232 or
  // RS-422 clears it.
  function LastAcs(on: bool, ops: seq<Op>, num: int, kind: int): bool
    decreases |ops|
  {
    if ops == [] then on
    else
      var op := ops[0];
      var next := if op.num != num then on
                  else if op.Acs? then op.on
                  else on && !(Supports(kind, op.t) && op.t <= 1);
      LastAcs(next, ops[1..], num, kind)
  }

  lemma {:induction false} AcsRoundTrip(c: Config, ops: seq<Op>, num: int)
    requires Complete(c) && OnCard(ops) && 1 <= num <= PORTS
    ensures Run(c, ops).ports[num].bits.acs == LastAcs(c.ports[num].bits.acs, ops, num, c.kind)
    decreases |ops|
  {
    if ops == [] {
    } else {
      AcsRoundTrip(Step(c, ops[0]), ops[1..], num);
    }
  }

  predicate CopiesRight(p: PortCfg) {
    p.soft.ahdc == p.bits.ahdc && p.soft.rs422 == p.bits.rs422
  }

  // The driver's copies of the type bits go wrong exactly when an unsupported type
  // clears bits that the copies hold set.
  lemma CopiesFollow(p: PortCfg, kind: int, t: int)
    ensures CopiesRight(Typed(p, kind, t)) <==> Supports(kind, t) || (!p.soft.ahdc && !p.soft.rs422)
  {}
}
