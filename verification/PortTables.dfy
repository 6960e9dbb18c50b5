// Carving the port tables into slices for the boards found (driver/snx_main.c).

module PortTables {
  import opened Errno
  import opened Options

  const BOARDS_MAX: int := 4
  const SER_TOTAL_MAX: int := 32
  const PAR_SUPPORT_MAX: int := 2
  const PAR_TOTAL_MAX: int := 4
  const BARS: int := 6

  const IRQ_NONE: int := -1

  const SUNNONE: int := 0x0000
  const SUN1888: int := 0x0004
  const SUN1689: int := 0x0008
  const SUNMATX: int := 0x0010
  const SUN1999: int := 0x0020

  datatype PortConf = PortConf(chip: int, bar1: nat, offset1: int, bar2: nat, offset2: int)

  datatype BoardConf = BoardConf(numSer: nat, numPar: nat, ports: seq<PortConf>,
                                 vectorBar: nat, vectorOffset: int, remap: bool)

  // A slot of the board table: boardEnum is positive when it holds a board, and then
  // chooses the board's configuration.
  datatype Board = Board(boardEnum: int, bus: int, dev: int, irq: nat, bars: seq<int>)

  // The fields of a board that are filled in here
  datatype Share = Share(ser: nat, par: nat, serIndex: nat)

  datatype SerEntry = SerEntry(chip: int, iobase: int, vector: int)

  datatype ParEntry = ParEntry(chip: int, base: int, baseHi: int, bus: int, dev: int, boardEnum: int,
                               pbInfo: Option<BoardConf>, irq: int, portnum: int, snxType: int)

  const NO_SER: SerEntry := SerEntry(SUNNONE, 0, 0)
  const NO_PAR: ParEntry := ParEntry(SUNNONE, 0, 0, 0, 0, 0, None, 0, 0, 0)

  predicate Holds(b: Board) {
    b.boardEnum > 0
  }

  // Serial rows come before parallel rows, parallel chips have a flag, and the
  // address ranges named exist.
  predicate GoodConf(c: BoardConf) {
    && c.numSer + c.numPar <= |c.ports| && c.vectorBar < BARS
    && (forall i :: 0 <= i < c.numSer + c.numPar ==> c.ports[i].bar1 < BARS)
    && (forall i :: c.numSer <= i < c.numSer + c.numPar ==> c.ports[i].bar2 < BARS && c.ports[i].chip != SUNNONE)
  }

  predicate GoodBoard(confs: seq<BoardConf>, b: Board) {
    Holds(b) ==> b.boardEnum < |confs| && GoodConf(confs[b.boardEnum]) && |b.bars| == BARS
  }

  predicate GoodBoards(confs: seq<BoardConf>, bs: seq<Board>) {
    |bs| == 4 && forall i :: 0 <= i < |bs| ==> GoodBoard(confs, bs[i])
  }

  function Sers(confs: seq<BoardConf>, b: Board): nat
    requires GoodBoard(confs, b)
  {
    if Holds(b) then confs[b.boardEnum].numSer else 0
  }

  function Pars(confs: seq<BoardConf>, b: Board): nat
    requires GoodBoard(confs, b)
  {
    if Holds(b) then confs[b.boardEnum].numPar else 0
  }

  // The ports of the first n boards
  function SerStart(confs: seq<BoardConf>, bs: seq<Board>, n: nat): nat
    requires GoodBoards(confs, bs) && n <= |bs|
  {
    if n == 0 then 0 else SerStart(confs, bs, n - 1) + Sers(confs, bs[n - 1])
  }

  function ParStart(confs: seq<BoardConf>, bs: seq<Board>, n: nat): nat
    requires GoodBoards(confs, bs) && n <= |bs|
  {
    if n == 0 then 0 else ParStart(confs, bs, n - 1) + Pars(confs, bs[n - 1])
  }

  function SerOf(confs: seq<BoardConf>, b: Board, j: nat): SerEntry
    requires GoodBoard(confs, b) && j < Sers(confs, b)
  {
    var c := confs[b.boardEnum];
    var p := c.ports[j];
    SerEntry(p.chip, b.bars[p.bar1] + p.offset1, if c.remap then 0 else b.bars[c.vectorBar] + c.vectorOffset)
  }

  function ParOf(confs: seq<BoardConf>, b: Board, k: nat): ParEntry
    requires GoodBoard(confs, b) && k < Pars(confs, b)
  {
    var c := confs[b.boardEnum];
    var p := c.ports[c.numSer + k];
    NO_PAR.(chip := p.chip, base := b.bars[p.bar1] + p.offset1, baseHi := b.bars[p.bar2] + p.offset2,
            bus := b.bus, dev := b.dev, boardEnum := b.boardEnum)
  }

  // ---- Slices ----

  lemma {:induction false} StartsGrow(confs: seq<BoardConf>, bs: seq<Board>, m: nat, n: nat)
    requires GoodBoards(confs, bs) && m <= n <= |bs|
    ensures SerStart(confs, bs, m) <= SerStart(confs, bs, n) && ParStart(confs, bs, m) <= ParStart(confs, bs, n)
  {
    if m < n {
      StartsGrow(confs, bs, m, n - 1);
    }
  }

  // The slices of the first n boards tile the numbers below their total: every
  // number lies in one slice.
  lemma {:induction false} SerSliceOf(confs: seq<BoardConf>, bs: seq<Board>, n: nat, x: nat) returns (i: nat, j: nat)
    requires GoodBoards(confs, bs) && n <= |bs| && x < SerStart(confs, bs, n)
    ensures i < n && j < Sers(confs, bs[i]) && x == SerStart(confs, bs, i) + j
    ensures forall m :: 0 <= m < |bs| && SerStart(confs, bs, m) <= x < SerStart(confs, bs, m) + Sers(confs, bs[m]) ==> m == i
  {
    if x >= SerStart(confs, bs, n - 1) {
      i, j := n - 1, x - SerStart(confs, bs, n - 1);
      forall m | 0 <= m < |bs| && SerStart(confs, bs, m) <= x < SerStart(confs, bs, m) + Sers(confs, bs[m]) ensures m == i {
        if m < i {
          StartsGrow(confs, bs, m + 1, i);
        } else if i < m {
          StartsGrow(confs, bs, i + 1, m);
        }
      }
    } else {
      i, j := SerSliceOf(confs, bs, n - 1, x);
    }
  }

  lemma {:induction false} ParSliceOf(confs: seq<BoardConf>, bs: seq<Board>, n: nat, x: nat) returns (i: nat, k: nat)
    requires GoodBoards(confs, bs) && n <= |bs| && x < ParStart(confs, bs, n)
    ensures i < n && k < Pars(confs, bs[i]) && x == ParStart(confs, bs, i) + k
  {
    if x >= ParStart(confs, bs, n - 1) {
      i, k := n - 1, x - ParStart(confs, bs, n - 1);
    } else {
      i, k := ParSliceOf(confs, bs, n - 1, x);
    }
  }

  // The entry of a board's port is in its place.
  ghost predicate SerIn(confs: seq<BoardConf>, bs: seq<Board>, i: nat, j: nat, table: seq<SerEntry>)
    requires GoodBoards(confs, bs) && i < |bs| && j < Sers(confs, bs[i])
  {
    var x := SerStart(confs, bs, i) + j;
    x < |table| && table[x] == SerOf(confs, bs[i], j)
  }

  ghost predicate ParIn(confs: seq<BoardConf>, bs: seq<Board>, i: nat, k: nat, table: seq<ParEntry>)
    requires GoodBoards(confs, bs) && i < |bs| && k < Pars(confs, bs[i])
  {
    var x := ParStart(confs, bs, i) + k;
    x < |table| && table[x] == ParOf(confs, bs[i], k)
  }

  // The tables once the first n boards have their slices: each board's entries in
  // its own slice, nothing beyond.
  ghost predicate SerLaid(confs: seq<BoardConf>, bs: seq<Board>, n: nat, table: seq<SerEntry>)
    requires GoodBoards(confs, bs) && n <= |bs|
  {
    && SerStart(confs, bs, n) <= |table|
    && (forall i, j :: 0 <= i < n && 0 <= j < Sers(confs, bs[i]) ==> SerIn(confs, bs, i, j, table))
    && (forall x :: SerStart(confs, bs, n) <= x < |table| ==> table[x] == NO_SER)
  }

  ghost predicate ParLaid(confs: seq<BoardConf>, bs: seq<Board>, n: nat, table: seq<ParEntry>)
    requires GoodBoards(confs, bs) && n <= |bs|
  {
    && ParStart(confs, bs, n) <= |table|
    && (forall i, k :: 0 <= i < n && 0 <= k < Pars(confs, bs[i]) ==> ParIn(confs, bs, i, k, table))
    && (forall x :: ParStart(confs, bs, n) <= x < |table| ==> table[x] == NO_PAR)
  }

  // What the tables hold beyond the last slice, and which slots count, in numbers.
  lemma BeyondIsZero(confs: seq<BoardConf>, bs: seq<Board>, sers: seq<SerEntry>, pars: seq<ParEntry>, x: nat, i: nat)
    requires GoodBoards(confs, bs) && SerLaid(confs, bs, |bs|, sers) && ParLaid(confs, bs, |bs|, pars)
    ensures SerStart(confs, bs, |bs|) <= x < |sers| ==> sers[x] == SerEntry(0, 0, 0)
    ensures ParStart(confs, bs, |bs|) <= x < |pars| ==> pars[x] == ParEntry(0, 0, 0, 0, 0, 0, None, 0, 0, 0)
    ensures i < |bs| && bs[i].boardEnum <= 0 ==> Sers(confs, bs[i]) == Pars(confs, bs[i]) == 0
    ensures i < |bs| && bs[i].boardEnum > 0 ==>
              var c := confs[bs[i].boardEnum]; Sers(confs, bs[i]) == c.numSer && Pars(confs, bs[i]) == c.numPar
  {}

  // ---- Where the ports' registers are ----

  function PortAt(confs: seq<BoardConf>, bs: seq<Board>, i: nat, n: nat): PortConf
    requires GoodBoards(confs, bs) && i < |bs| && Holds(bs[i]) && n < Sers(confs, bs[i]) + Pars(confs, bs[i])
  {
    confs[bs[i].boardEnum].ports[n]
  }

  // In a table laid out for the boards, a serial port at offset 0 has its range's
  // address, and two of one range are as far apart as their offsets.  The interrupt
  // vector register is found in the same way, and is 0 on boards that remap it.
  lemma SerAddresses(confs: seq<BoardConf>, bs: seq<Board>, table: seq<SerEntry>, i: nat, j: nat, j': nat)
    requires GoodBoards(confs, bs) && SerLaid(confs, bs, |bs|, table) && i < |bs|
    requires j < Sers(confs, bs[i]) && j' < Sers(confs, bs[i])
    ensures SerStart(confs, bs, i) + j < |table| && SerStart(confs, bs, i) + j' < |table|
    ensures var p, p' := PortAt(confs, bs, i, j), PortAt(confs, bs, i, j');
            var e, e' := table[SerStart(confs, bs, i) + j], table[SerStart(confs, bs, i) + j'];
            && e.chip == p.chip && (p.offset1 == 0 ==> e.iobase == bs[i].bars[p.bar1])
            && (p.bar1 == p'.bar1 ==> e'.iobase - e.iobase == p'.offset1 - p.offset1)
    ensures var c, e := confs[bs[i].boardEnum], table[SerStart(confs, bs, i) + j];
            if c.remap then e.vector == 0 else e.vector - bs[i].bars[c.vectorBar] == c.vectorOffset
  {
    assert SerIn(confs, bs, i, j, table) && SerIn(confs, bs, i, j', table);
  }

  // The same for both register blocks of the parallel ports.
  lemma ParAddresses(confs: seq<BoardConf>, bs: seq<Board>, table: seq<ParEntry>, i: nat, k: nat, k': nat)
    requires GoodBoards(confs, bs) && ParLaid(confs, bs, |bs|, table) && i < |bs|
    requires k < Pars(confs, bs[i]) && k' < Pars(confs, bs[i])
    ensures ParStart(confs, bs, i) + k < |table| && ParStart(confs, bs, i) + k' < |table|
    ensures var sers := Sers(confs, bs[i]); var p, p' := PortAt(confs, bs, i, sers + k), PortAt(confs, bs, i, sers + k');
            var e, e' := table[ParStart(confs, bs, i) + k], table[ParStart(confs, bs, i) + k'];
            && e.chip == p.chip && e.bus == bs[i].bus && e.dev == bs[i].dev && e.boardEnum == bs[i].boardEnum
            && (p.offset1 == 0 ==> e.base == bs[i].bars[p.bar1]) && (p.offset2 == 0 ==> e.baseHi == bs[i].bars[p.bar2])
            && (p.bar1 == p'.bar1 ==> e'.base - e.base == p'.offset1 - p.offset1)
            && (p.bar2 == p'.bar2 ==> e'.baseHi - e.baseHi == p'.offset2 - p.offset2)
            && (p.bar1 == p'.bar2 ==> e'.baseHi - e.base == p'.offset2 - p.offset1)
  {
    assert ParIn(confs, bs, i, k, table) && ParIn(confs, bs, i, k', table);
  }

  // Two stretches of addresses
  predicate Apart(a: int, n: nat, b: int, m: nat) {
    a + n <= b || b + m <= a
  }

  // The boards' address ranges do not overlap: size says how long each is.
  ghost predicate RangesApart(bs: seq<Board>, size: (int, int) -> nat) {
    forall i, i', r, r' {:trigger bs[i].bars[r], bs[i'].bars[r']} ::
      0 <= i < |bs| && 0 <= i' < |bs| && 0 <= r < |bs[i].bars| && 0 <= r' < |bs[i'].bars| && (i, r) != (i', r') ==>
        Apart(bs[i].bars[r], size(i, r), bs[i'].bars[r'], size(i', r'))
  }

  const SER_REGISTERS: nat := 8

  // The port's registers lie inside their range.
  predicate Inside(p: PortConf, size: nat) {
    0 <= p.offset1 && p.offset1 + SER_REGISTERS <= size
  }

  // So no two serial ports, of one board or of two, share a register, unless the
  // configuration puts them less than eight addresses apart in one range.
  lemma SerRegistersApart(confs: seq<BoardConf>, bs: seq<Board>, table: seq<SerEntry>, size: (int, int) -> nat,
                          i: nat, j: nat, i': nat, j': nat)
    requires GoodBoards(confs, bs) && SerLaid(confs, bs, |bs|, table) && RangesApart(bs, size)
    requires i < |bs| && i' < |bs| && j < Sers(confs, bs[i]) && j' < Sers(confs, bs[i'])
    requires var p, p' := PortAt(confs, bs, i, j), PortAt(confs, bs, i', j');
             && Inside(p, size(i, p.bar1)) && Inside(p', size(i', p'.bar1))
             && (i == i' && p.bar1 == p'.bar1 ==> Apart(p.offset1, 8, p'.offset1, 8))
    ensures SerStart(confs, bs, i) + j < |table| && SerStart(confs, bs, i') + j' < |table|
    ensures Apart(table[SerStart(confs, bs, i) + j].iobase, 8, table[SerStart(confs, bs, i') + j'].iobase, 8)
  {
    assert SerIn(confs, bs, i, j, table) && SerIn(confs, bs, i', j', table);
    var p, p' := PortAt(confs, bs, i, j), PortAt(confs, bs, i', j');
    if i == i' && p.bar1 == p'.bar1 {
    } else {
      assert Apart(bs[i].bars[p.bar1], size(i, p.bar1), bs[i'].bars[p'.bar1], size(i', p'.bar1));
    }
  }

  // The same for the two register blocks of the parallel ports: hi tells which, and n
  // how long it is.
  lemma ParRegistersApart(confs: seq<BoardConf>, bs: seq<Board>, table: seq<ParEntry>, size: (int, int) -> nat,
                          i: nat, k: nat, hi: bool, n: nat, i': nat, k': nat, hi': bool, n': nat)
    requires GoodBoards(confs, bs) && ParLaid(confs, bs, |bs|, table) && RangesApart(bs, size)
    requires i < |bs| && i' < |bs| && k < Pars(confs, bs[i]) && k' < Pars(confs, bs[i'])
    requires var p, p' := PortAt(confs, bs, i, Sers(confs, bs[i]) + k), PortAt(confs, bs, i', Sers(confs, bs[i']) + k');
             var r, r' := if hi then p.bar2 else p.bar1, if hi' then p'.bar2 else p'.bar1;
             var o, o' := if hi then p.offset2 else p.offset1, if hi' then p'.offset2 else p'.offset1;
             && 0 <= o <= o + n <= size(i, r) && 0 <= o' <= o' + n' <= size(i', r')
             && (i == i' && r == r' ==> Apart(o, n, o', n'))
    ensures ParStart(confs, bs, i) + k < |table| && ParStart(confs, bs, i') + k' < |table|
    ensures var e, e' := table[ParStart(confs, bs, i) + k], table[ParStart(confs, bs, i') + k'];
            Apart(if hi then e.baseHi else e.base, n, if hi' then e'.baseHi else e'.base, n')
  {
    assert ParIn(confs, bs, i, k, table) && ParIn(confs, bs, i', k', table);
    var p, p' := PortAt(confs, bs, i, Sers(confs, bs[i]) + k), PortAt(confs, bs, i', Sers(confs, bs[i']) + k');
    var r, r' := if hi then p.bar2 else p.bar1, if hi' then p'.bar2 else p'.bar1;
    if i == i' && r == r' {
    } else {
      assert Apart(bs[i].bars[r], size(i, r), bs[i'].bars[r'], size(i', r'));
    }
  }

  lemma SerNext(confs: seq<BoardConf>, bs: seq<Board>, i: nat, before: seq<SerEntry>, after: seq<SerEntry>)
    requires GoodBoards(confs, bs) && i < |bs| && SerLaid(confs, bs, i, before) && |after| == |before|
    requires SerStart(confs, bs, i + 1) <= |after|
    requires forall j :: 0 <= j < Sers(confs, bs[i]) ==> SerIn(confs, bs, i, j, after)
    requires forall x :: 0 <= x < |after| && !(SerStart(confs, bs, i) <= x < SerStart(confs, bs, i + 1)) ==> after[x] == before[x]
    ensures SerLaid(confs, bs, i + 1, after)
  {
    forall m, j | 0 <= m < i + 1 && 0 <= j < Sers(confs, bs[m]) ensures SerIn(confs, bs, m, j, after) {
      if m < i {
        assert SerIn(confs, bs, m, j, before);
        StartsGrow(confs, bs, m + 1, i);
      }
    }
  }

  lemma ParNext(confs: seq<BoardConf>, bs: seq<Board>, i: nat, before: seq<ParEntry>, after: seq<ParEntry>)
    requires GoodBoards(confs, bs) && i < |bs| && ParLaid(confs, bs, i, before) && |after| == |before|
    requires ParStart(confs, bs, i + 1) <= |after|
    requires forall k :: 0 <= k < Pars(confs, bs[i]) ==> ParIn(confs, bs, i, k, after)
    requires forall x :: 0 <= x < |after| && !(ParStart(confs, bs, i) <= x < ParStart(confs, bs, i + 1)) ==> after[x] == before[x]
    ensures ParLaid(confs, bs, i + 1, after)
  {
    forall m, k | 0 <= m < i + 1 && 0 <= k < Pars(confs, bs[m]) ensures ParIn(confs, bs, m, k, after) {
      if m < i {
        assert ParIn(confs, bs, m, k, before);
        StartsGrow(confs, bs, m + 1, i);
      }
    }
  }

  // No entry of a slice is free.
  lemma ParsAreTaken(confs: seq<BoardConf>, bs: seq<Board>, n: nat, table: seq<ParEntry>)
    requires GoodBoards(confs, bs) && n <= |bs| && ParLaid(confs, bs, n, table)
    ensures forall x :: 0 <= x < ParStart(confs, bs, n) ==> table[x].chip != SUNNONE
  {
    forall x | 0 <= x < ParStart(confs, bs, n) ensures table[x].chip != SUNNONE {
      var i, k := ParSliceOf(confs, bs, n, x);
      assert ParIn(confs, bs, i, k, table);
    }
  }

  // ---- Whose parallel ports are whose ----

  // How sunix_par_port_table_init recognises a board's entries
  predicate Mine(b: Board, e: ParEntry) {
    e.bus == b.bus && e.dev == b.dev && e.boardEnum == b.boardEnum
  }

  // The entries before j it takes for the board's
  function Rank(b: Board, table: seq<ParEntry>, j: nat): nat
    requires j <= |table|
  {
    if j == 0 then 0 else Rank(b, table, j - 1) + if Mine(b, table[j - 1]) then 1 else 0
  }

  predicate MarkedBy(confs: seq<BoardConf>, b: Board, table: seq<ParEntry>, j: nat)
    requires GoodBoard(confs, b) && j < |table|
  {
    Mine(b, table[j]) && Rank(b, table, j) < Pars(confs, b)
  }

  predicate Marked(confs: seq<BoardConf>, bs: seq<Board>, n: nat, table: seq<ParEntry>, j: nat)
    requires GoodBoards(confs, bs) && n <= |bs| && j < |table|
  {
    exists i :: 0 <= i < n && MarkedBy(confs, bs[i], table, j)
  }

  function SnxType(chip: int): int {
    if chip == SUN1888 then 1 else if chip == SUN1689 then 2 else if chip == SUNMATX then 3
    else if chip == SUN1999 then 4 else 0
  }

  function Inited(confs: seq<BoardConf>, e: ParEntry, j: nat): ParEntry
    requires 0 <= e.boardEnum < |confs|
  {
    e.(pbInfo := Some(confs[e.boardEnum]), irq := IRQ_NONE, portnum := j, snxType := SnxType(e.chip))
  }

  // What initialisation adds to an entry, in numbers.
  lemma InitedNumbers(confs: seq<BoardConf>, e: ParEntry, j: nat)
    requires 0 <= e.boardEnum < |confs|
    ensures var f := Inited(confs, e, j);
            && f.pbInfo == Some(confs[e.boardEnum]) && f.irq == -1 && f.portnum == j
            && f.base == e.base && f.baseHi == e.baseHi && f.chip == e.chip && Mine(Board(e.boardEnum, e.bus, e.dev, 0, []), f)
            && f.snxType == match e.chip case 0x04 => 1 case 0x08 => 2 case 0x10 => 3 case 0x20 => 4 case _ => 0
  {}

  // Two boards with parallel ports that look the same: two functions of one PCI
  // device, say.
  predicate Alike(confs: seq<BoardConf>, b: Board, c: Board)
    requires GoodBoard(confs, b) && GoodBoard(confs, c)
  {
    Pars(confs, b) > 0 && Pars(confs, c) > 0 && b.bus == c.bus && b.dev == c.dev && b.boardEnum == c.boardEnum
  }

  predicate Distinct(confs: seq<BoardConf>, bs: seq<Board>)
    requires GoodBoards(confs, bs)
  {
    forall i, j :: 0 <= i < j < |bs| ==> !Alike(confs, bs[i], bs[j])
  }

  lemma {:induction false} RankAtMost(b: Board, table: seq<ParEntry>, a: nat, j: nat)
    requires a <= j <= |table| && forall x :: 0 <= x < a ==> !Mine(b, table[x])
    ensures Rank(b, table, j) <= j - a
  {
    if j > a {
      RankAtMost(b, table, a, j - 1);
    } else if a > 0 {
      RankAtMost(b, table, a - 1, j - 1);
    }
  }

  lemma {:induction false} RankAtLeast(b: Board, table: seq<ParEntry>, a: nat, n: nat, j: nat)
    requires a + n <= j <= |table| && forall x :: a <= x < a + n ==> Mine(b, table[x])
    ensures Rank(b, table, j) >= n
  {
    if n == 0 {
    } else if j > a + n {
      RankAtLeast(b, table, a, n, j - 1);
    } else {
      RankAtLeast(b, table, a, n - 1, j - 1);
    }
  }

  lemma {:induction false} RankSame(b: Board, t: seq<ParEntry>, u: seq<ParEntry>, j: nat)
    requires |t| == |u| && j <= |t| && forall x :: 0 <= x < j ==> Mine(b, t[x]) == Mine(b, u[x])
    ensures Rank(b, t, j) == Rank(b, u, j)
  {
    if j > 0 {
      RankSame(b, t, u, j - 1);
    }
  }

  // A board that is like no other recognises its own slice and nothing else.
  lemma MineIsMySlice(confs: seq<BoardConf>, bs: seq<Board>, table: seq<ParEntry>, i: nat, j: nat)
    requires GoodBoards(confs, bs) && ParLaid(confs, bs, |bs|, table) && Distinct(confs, bs)
    requires i < |bs| && Pars(confs, bs[i]) > 0 && j < |table|
    ensures Mine(bs[i], table[j]) <==> ParStart(confs, bs, i) <= j < ParStart(confs, bs, i) + Pars(confs, bs[i])
  {
    if j < ParStart(confs, bs, |bs|) {
      var m, k := ParSliceOf(confs, bs, |bs|, j);
      assert ParIn(confs, bs, m, k, table);
      assert Mine(bs[m], table[j]);
      if m < i {
        StartsGrow(confs, bs, m + 1, i);
        assert !Alike(confs, bs[m], bs[i]);
      } else if i < m {
        StartsGrow(confs, bs, i + 1, m);
        assert !Alike(confs, bs[i], bs[m]);
      }
    } else {
      StartsGrow(confs, bs, i + 1, |bs|);
    }
  }

  lemma DistinctMarks(confs: seq<BoardConf>, bs: seq<Board>, table: seq<ParEntry>, j: nat)
    requires GoodBoards(confs, bs) && ParLaid(confs, bs, |bs|, table) && Distinct(confs, bs)
    requires j < ParStart(confs, bs, |bs|)
    ensures Marked(confs, bs, |bs|, table, j)
  {
    var i, k := ParSliceOf(confs, bs, |bs|, j);
    var start := ParStart(confs, bs, i);
    forall x | 0 <= x < start ensures !Mine(bs[i], table[x]) {
      MineIsMySlice(confs, bs, table, i, x);
    }
    RankAtMost(bs[i], table, start, j);
    MineIsMySlice(confs, bs, table, i, j);
    assert MarkedBy(confs, bs[i], table, j);
  }

  lemma AlikeIsMissed(confs: seq<BoardConf>, bs: seq<Board>, table: seq<ParEntry>, i: nat, i': nat)
    requires GoodBoards(confs, bs) && ParLaid(confs, bs, |bs|, table)
    requires i < i' < |bs| && Alike(confs, bs[i], bs[i'])
    ensures ParStart(confs, bs, i') < ParStart(confs, bs, |bs|)
    ensures !Marked(confs, bs, |bs|, table, ParStart(confs, bs, i'))
  {
    var a, j, p := ParStart(confs, bs, i), ParStart(confs, bs, i'), Pars(confs, bs[i]);
    StartsGrow(confs, bs, i' + 1, |bs|);
    StartsGrow(confs, bs, i + 1, i');
    assert ParIn(confs, bs, i', 0, table);
    forall m | 0 <= m < |bs| && Mine(bs[m], table[j]) ensures !MarkedBy(confs, bs[m], table, j) {
      forall x | a <= x < a + p ensures Mine(bs[m], table[x]) {
        assert ParIn(confs, bs, i, x - a, table);
      }
      RankAtLeast(bs[m], table, a, p, j);
    }
  }

  // Table initialisation reaches every parallel port assigned exactly when no two
  // boards with parallel ports are alike; otherwise a whole board is missed.
  lemma EveryPortIsFound(confs: seq<BoardConf>, bs: seq<Board>, table: seq<ParEntry>)
    requires GoodBoards(confs, bs) && ParLaid(confs, bs, |bs|, table)
    ensures (forall j :: 0 <= j < ParStart(confs, bs, |bs|) ==> Marked(confs, bs, |bs|, table, j)) <==> Distinct(confs, bs)
  {
    if Distinct(confs, bs) {
      forall j | 0 <= j < ParStart(confs, bs, |bs|) ensures Marked(confs, bs, |bs|, table, j) {
        DistinctMarks(confs, bs, table, j);
      }
    } else {
      var i, i' :| 0 <= i < i' < |bs| && Alike(confs, bs[i], bs[i']);
      AlikeIsMissed(confs, bs, table, i, i');
    }
  }

  // ---- The tables ----

  class Tables {
    const confs: seq<BoardConf>
    const boards: seq<Board>
    const serTable: array<SerEntry>
    const parTable: array<ParEntry>
    var shares: seq<Share>
    var serTotal: nat
    var parTotal: nat

    ghost predicate Valid()
      reads this
    {
      && GoodBoards(confs, boards) && |shares| == 4
      && serTable.Length == 33 && parTable.Length == 4
    }

    constructor (confs: seq<BoardConf>, boards: seq<Board>)
      requires GoodBoards(confs, boards)
      ensures Valid() && fresh(serTable) && fresh(parTable) && this.confs == confs && this.boards == boards
      ensures serTotal == parTotal == 0
    {
      this.confs, this.boards := confs, boards;
      serTable := new SerEntry[SER_TOTAL_MAX + 1](_ => NO_SER);
      parTable := new ParEntry[PAR_TOTAL_MAX](_ => NO_PAR);
      shares, serTotal, parTotal := seq(BOARDS_MAX, _ => Share(0, 0, 0)), 0, 0;
    }

    // The first n boards have their numbers of ports.
    ghost predicate Counted(n: nat)
      requires Valid() && n <= BOARDS_MAX
      reads this
    {
      && serTotal == SerStart(confs, boards, n) && parTotal == ParStart(confs, boards, n)
      && forall i :: 0 <= i < n && Holds(boards[i]) ==>
           shares[i].ser == Sers(confs, boards[i]) && shares[i].par == Pars(confs, boards[i])
    }

    predicate Fitting(n: nat)
      requires Valid() && n <= BOARDS_MAX
      reads this
    {
      && SerStart(confs, boards, n) <= 32 && ParStart(confs, boards, n) <= 2
      && forall i :: 0 <= i < n && Holds(boards[i]) ==> boards[i].irq > 0
    }

    // sunix_get_pci_board_conf succeeds exactly when all the ports fit and every
    // board has an interrupt.
    method GetBoardConf() returns (status: int)
      requires Valid() && serTotal == parTotal == 0
      modifies this`shares, this`serTotal, this`parTotal
      ensures Valid() && (status == 0 <==> Fitting(BOARDS_MAX)) && (status != 0 ==> status == -5)
      ensures status == 0 ==> Counted(BOARDS_MAX)
    {
      for i := 0 to BOARDS_MAX
        invariant Valid() && Counted(i) && Fitting(i)
      {
        StartsGrow(confs, boards, i + 1, BOARDS_MAX);
        if Holds(boards[i]) {
          var c := confs[boards[i].boardEnum];
          shares := shares[i := shares[i].(ser := c.numSer, par := c.numPar)];
          serTotal := serTotal + shares[i].ser;
          parTotal := parTotal + shares[i].par;
          if serTotal > SER_TOTAL_MAX {
            return -EIO;
          }
          if parTotal > PAR_SUPPORT_MAX {
            return -EIO;
          }
          if boards[i].irq <= 0 {
            return -EIO;
          }
        }
      }
      status := 0;
    }

    method AssignSerial(i: nat, index: nat)
      requires Valid() && i < BOARDS_MAX && Holds(boards[i]) && shares[i].ser == Sers(confs, boards[i])
      requires index + shares[i].ser <= SER_TOTAL_MAX
      modifies this`shares, serTable
      ensures Valid() && shares == old(shares)[i := old(shares)[i].(serIndex := index)]
      ensures forall j :: 0 <= j < shares[i].ser ==> serTable[index + j] == SerOf(confs, boards[i], j)
      ensures forall x :: 0 <= x < serTable.Length && !(index <= x < index + shares[i].ser) ==> serTable[x] == old(serTable[x])
    {
      var b, c := boards[i], confs[boards[i].boardEnum];
      shares := shares[i := shares[i].(serIndex := index)];
      var n := index;
      for j := 0 to shares[i].ser
        modifies serTable
        invariant n == index + j
        invariant forall m :: 0 <= m < j ==> serTable[index + m] == SerOf(confs, boards[i], m)
        invariant forall x :: 0 <= x < serTable.Length && !(index <= x < index + j) ==> serTable[x] == old(serTable[x])
      {
        var p := c.ports[j];
        serTable[n] := serTable[n].(chip := p.chip, iobase := b.bars[p.bar1] + p.offset1);
        if c.remap {
          serTable[n] := serTable[n].(vector := 0);
        } else {
          serTable[n] := serTable[n].(vector := b.bars[c.vectorBar] + c.vectorOffset);
        }
        n := n + 1;
      }
    }

    // The board's parallel ports go to the first free entries; start is the first.
    method AssignParallel(i: nat, ghost start: nat)
      requires Valid() && i < BOARDS_MAX && Holds(boards[i])
      requires shares[i].ser == Sers(confs, boards[i]) && shares[i].par == Pars(confs, boards[i])
      requires start + shares[i].par <= PAR_TOTAL_MAX
      requires forall x :: 0 <= x < start ==> parTable[x].chip != SUNNONE
      requires forall x :: start <= x < parTable.Length ==> parTable[x] == NO_PAR
      modifies parTable
      ensures forall k :: 0 <= k < shares[i].par ==> parTable[start + k] == ParOf(confs, boards[i], k)
      ensures forall x :: 0 <= x < parTable.Length && !(start <= x < start + shares[i].par) ==> parTable[x] == old(parTable[x])
    {
      var b, c := boards[i], confs[boards[i].boardEnum];
      var k, j := 0, 0;
      while j < PAR_TOTAL_MAX
        invariant 0 <= j <= PAR_TOTAL_MAX && 0 <= k <= shares[i].par
        invariant if j <= start then k == 0 else k == j - start
        invariant forall m :: 0 <= m < k ==> parTable[start + m] == ParOf(confs, boards[i], m)
        invariant forall x :: 0 <= x < parTable.Length && !(start <= x < start + k) ==> parTable[x] == old(parTable[x])
      {
        if k + 1 > shares[i].par {
          break;
        }
        if parTable[j].chip == SUNNONE {
          var p := c.ports[k + shares[i].ser];
          parTable[j] := parTable[j].(chip := p.chip, base := b.bars[p.bar1] + p.offset1,
                                      baseHi := b.bars[p.bar2] + p.offset2,
                                      bus := b.bus, dev := b.dev, boardEnum := b.boardEnum);
          k := k + 1;
        }
        j := j + 1;
      }
    }

    // sunix_assign_resource: every board gets its own slice of each table, in board
    // order and without gaps.
    method AssignResource()
      requires Valid() && Counted(BOARDS_MAX) && Fitting(BOARDS_MAX)
      modifies this`shares, serTable, parTable
      ensures Valid() && Counted(BOARDS_MAX)
      ensures SerLaid(confs, boards, BOARDS_MAX, serTable[..]) && ParLaid(confs, boards, BOARDS_MAX, parTable[..])
      ensures forall i :: 0 <= i < BOARDS_MAX && Sers(confs, boards[i]) > 0 ==>
                shares[i].serIndex == SerStart(confs, boards, i)
    {
      Clear();
      var index := 0;
      for i := 0 to BOARDS_MAX
        invariant Valid() && Counted(BOARDS_MAX) && index == SerStart(confs, boards, i)
        invariant SerLaid(confs, boards, i, serTable[..]) && ParLaid(confs, boards, i, parTable[..])
        invariant forall m :: 0 <= m < i && Sers(confs, boards[m]) > 0 ==> shares[m].serIndex == SerStart(confs, boards, m)
      {
        index := AssignBoard(i, index);
      }
    }

    method AssignBoard(i: nat, index: nat) returns (next: nat)
      requires Valid() && Counted(BOARDS_MAX) && Fitting(BOARDS_MAX) && i < BOARDS_MAX
      requires index == SerStart(confs, boards, i)
      requires SerLaid(confs, boards, i, serTable[..]) && ParLaid(confs, boards, i, parTable[..])
      modifies this`shares, serTable, parTable
      ensures Valid() && Counted(BOARDS_MAX) && next == SerStart(confs, boards, i + 1)
      ensures SerLaid(confs, boards, i + 1, serTable[..]) && ParLaid(confs, boards, i + 1, parTable[..])
      ensures forall m :: 0 <= m < BOARDS_MAX && m != i ==> shares[m] == old(shares[m])
      ensures Sers(confs, boards[i]) > 0 ==> shares[i].serIndex == index
    {
      StartsGrow(confs, boards, i + 1, BOARDS_MAX);
      ghost var sers, pars := serTable[..], parTable[..];
      next := index;
      if Holds(boards[i]) {
        if shares[i].ser > 0 {
          AssignSerial(i, index);
          next := index + shares[i].ser;
        }
        if shares[i].par > 0 {
          ParsAreTaken(confs, boards, i, parTable[..]);
          AssignParallel(i, ParStart(confs, boards, i));
        }
      }
      SerNext(confs, boards, i, sers, serTable[..]);
      ParNext(confs, boards, i, pars, parTable[..]);
    }

    method Clear()
      requires Valid()
      modifies serTable, parTable
      ensures SerLaid(confs, boards, 0, serTable[..]) && ParLaid(confs, boards, 0, parTable[..])
    {
      forall x | 0 <= x < serTable.Length {
        serTable[x] := NO_SER;
      }
      forall x | 0 <= x < parTable.Length {
        parTable[x] := NO_PAR;
      }
    }

    // One board's turn in sunix_par_port_table_init
    method InitBoard(i: nat)
      requires Valid() && i < BOARDS_MAX && Holds(boards[i]) && shares[i].par == Pars(confs, boards[i])
      modifies parTable
      ensures forall j :: 0 <= j < parTable.Length ==>
                parTable[j] == if MarkedBy(confs, boards[i], old(parTable[..]), j) then Inited(confs, old(parTable[j]), j)
                               else old(parTable[j])
    {
      var b := boards[i];
      ghost var before := parTable[..];
      var k := 0;
      for j := 0 to PAR_TOTAL_MAX
        invariant k == Rank(b, before, j) <= shares[i].par
        invariant forall x :: j <= x < PAR_TOTAL_MAX ==> parTable[x] == before[x]
        invariant forall x :: 0 <= x < j ==>
                    parTable[x] == if MarkedBy(confs, b, before, x) then Inited(confs, before[x], x) else before[x]
      {
        if k + 1 > shares[i].par {
          RankGrows(b, before, j);
          break;
        }
        if parTable[j].bus == b.bus && parTable[j].dev == b.dev && parTable[j].boardEnum == b.boardEnum {
          parTable[j] := parTable[j].(pbInfo := Some(confs[b.boardEnum]), irq := IRQ_NONE, portnum := j,
                                      snxType := SnxType(parTable[j].chip));
          k := k + 1;
        }
      }
    }

    // sunix_par_port_table_init
    method ParPortTableInit()
      requires Valid() && Counted(BOARDS_MAX)
      modifies parTable
      ensures forall j :: 0 <= j < parTable.Length ==>
                parTable[j] == if Marked(confs, boards, BOARDS_MAX, old(parTable[..]), j)
                               then Inited(confs, old(parTable[j]), j) else old(parTable[j])
    {
      ghost var before := parTable[..];
      for i := 0 to BOARDS_MAX
        invariant forall j :: 0 <= j < PAR_TOTAL_MAX ==>
                    parTable[j] == if Marked(confs, boards, i, before, j) then Inited(confs, before[j], j) else before[j]
      {
        if Holds(boards[i]) && shares[i].par > 0 {
          ghost var now := parTable[..];
          InitBoard(i);
          forall j | 0 <= j < PAR_TOTAL_MAX ensures MarkedBy(confs, boards[i], now, j) == MarkedBy(confs, boards[i], before, j) {
            RankSame(boards[i], now, before, j);
          }
        }
      }
    }
  }

  lemma {:induction false} RankGrows(b: Board, table: seq<ParEntry>, j: nat)
    requires j <= |table|
    ensures forall x :: j <= x <= |table| ==> Rank(b, table, x) >= Rank(b, table, j)
    decreases |table| - j
  {
    if j < |table| {
      RankGrows(b, table, j + 1);
    }
  }
}
