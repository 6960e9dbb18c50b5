// Finding the boards (driver/snx_main.c): five passes over the PCI devices, one for
// each kind of board, compare every device with every row of the board table.

module BoardProbe {
  import opened Errno

  const BOARDS_MAX: int := 4
  const SCANS: int := 5

  const VENID_GOLDEN: int := 0x1409
  const DEVID_G_SERIAL: int := 0x7168
  const DEVID_G_PARALL: int := 0x7268
  const VENID_SUN: int := 0x1FD4
  const DEVID_M_SERIAL: int := 0x0001
  const DEVID_S: int := 0x1999

  // A PCI device: its configuration space, two of its own registers, and whether it
  // can be enabled.
  datatype Device = Device(vendor: int, device: int, subdevice: int, bus: int, slot: int,
                           byte5: bv8, byte7: bv8, enables: bool)

  // A row of the board table, with its entry of the configuration table
  datatype Row = Row(subdevice: int, boardEnum: int, part: int, card: int, gpio: int)

  // A board found: which pass and row took which device
  datatype Slot = Slot(scan: int, row: int, pdev: int)

  predicate Looks(scan: int, d: Device) {
    if scan == 0 then d.vendor == VENID_GOLDEN && d.device == DEVID_G_SERIAL
    else if scan == 1 then d.vendor == VENID_GOLDEN && d.device == DEVID_G_PARALL
    else if scan == 2 then d.vendor == VENID_SUN && d.device == DEVID_M_SERIAL
    else d.vendor == VENID_SUN && d.device == DEVID_S
  }

  // Two bits of the last register
  function CardType(d: Device): int {
    ((d.byte7 & 0x18) >> 3) as int
  }

  // Two more bits name a number of channels, or with none of them set the card type
  // does.
  function GpioChannels(d: Device): int {
    var code := ((d.byte7 & 0x60) >> 5) as int;
    match code
    case 0 => if CardType(d) == 1 then 6 else if CardType(d) == 2 then 8 else 0
    case 1 => 16
    case 2 => 32
    case _ => code
  }

  // What a pass asks of a device beside its subdevice number
  predicate Fits(scan: int, r: Row, d: Device) {
    if scan == 0 then r.part == 0
    else if scan == 3 then d.byte5 as int == r.part && CardType(d) == r.card && GpioChannels(d) == r.gpio
    else true
  }

  // What the passes look for, in numbers: vendor and device.
  lemma IdsInNumbers(scan: int, d: Device)
    requires 0 <= scan < 5
    ensures Looks(scan, d) <==> (d.vendor, d.device) == match scan
                                                        case 0 => (0x1409, 0x7168)
                                                        case 1 => (0x1409, 0x7268)
                                                        case 2 => (0x1FD4, 0x0001)
                                                        case _ => (0x1FD4, 0x1999)
  {}

  lemma ShiftedBits(b: bv8)
    ensures ((b & 0x18) >> 3) as int == if b & 0x18 == 0x08 then 1 else if b & 0x18 == 0x10 then 2
                                        else if b & 0x18 == 0x18 then 3 else 0
    ensures ((b & 0x60) >> 5) as int == if b & 0x60 == 0x20 then 1 else if b & 0x60 == 0x40 then 2
                                        else if b & 0x60 == 0x60 then 3 else 0
  {
    var card, code := (b & 0x18) >> 3, (b & 0x60) >> 5;
    assert card == 0 || card == 1 || card == 2 || card == 3;
    assert code == 0 || code == 1 || code == 2 || code == 3;
  }

  // Which row of the fourth pass fits a device, in the bits of its last register: bits
  // 3 and 4 are the card type, bits 5 and 6 choose 16 or 32 channels or leave it to the
  // card type.  The first pass asks for a row without part number, the others for nothing.
  lemma FitsInBits(r: Row, d: Device)
    ensures Fits(3, r, d) <==> (d.byte5 as int, CardType(d), GpioChannels(d)) == (r.part, r.card, r.gpio)
    ensures CardType(d) == match d.byte7 & 0x18 case 0x08 => 1 case 0x10 => 2 case 0x18 => 3 case _ => 0
    ensures GpioChannels(d) == match d.byte7 & 0x60
                               case 0x20 => 16
                               case 0x40 => 32
                               case 0x60 => 3
                               case _ => match d.byte7 & 0x18 case 0x08 => 6 case 0x10 => 8 case _ => 0
    ensures (Fits(0, r, d) <==> r.part == 0) && Fits(1, r, d) && Fits(2, r, d) && Fits(4, r, d)
  {
    ShiftedBits(d.byte7);
  }

  ghost predicate Accepts(pci: seq<Device>, table: seq<Row>, x: Slot) {
    && 0 <= x.scan < 5 && 0 <= x.row < |table| && 0 <= x.pdev < |pci|
    && Looks(x.scan, pci[x.pdev]) && pci[x.pdev].subdevice == table[x.row].subdevice
    && Fits(x.scan, table[x.row], pci[x.pdev])
  }

  // Passes come first, then rows, then devices.
  predicate Before(x: Slot, y: Slot) {
    x.scan < y.scan || (x.scan == y.scan && (x.row < y.row || (x.row == y.row && x.pdev < y.pdev)))
  }

  // No earlier pass or row accepts the device.
  ghost predicate First(pci: seq<Device>, table: seq<Row>, x: Slot) {
    Accepts(pci, table, x) && forall y: Slot :: y.pdev == x.pdev && Before(y, x) ==> !Accepts(pci, table, y)
  }

  // A pass takes a device with the first row that accepts it, if no earlier pass
  // did; but in the first row of the table, passes do not look whether one did.
  ghost predicate Assigned(pci: seq<Device>, table: seq<Row>, x: Slot) {
    Accepts(pci, table, x) && (x.row == 0 || First(pci, table, x))
  }

  ghost predicate Sorted(boards: seq<Slot>) {
    forall i, j :: 0 <= i < j < |boards| ==> Before(boards[i], boards[j])
  }

  // The boards found up to a point: exactly the assignments before it, in order.
  ghost predicate FoundUpTo(pci: seq<Device>, table: seq<Row>, boards: seq<Slot>, end: Slot) {
    Sorted(boards) && forall x :: x in boards <==> Assigned(pci, table, x) && Before(x, end)
  }

  ghost predicate FoundAll(pci: seq<Device>, table: seq<Row>, boards: seq<Slot>) {
    Sorted(boards) && forall x :: x in boards <==> Assigned(pci, table, x)
  }

  lemma {:induction false} FirstAcceptance(pci: seq<Device>, table: seq<Row>, x: Slot) returns (y: Slot)
    requires Accepts(pci, table, x)
    ensures First(pci, table, y) && y.pdev == x.pdev && (y == x || Before(y, x))
    decreases x.scan, x.row
  {
    if First(pci, table, x) {
      y := x;
    } else {
      var z: Slot :| z.pdev == x.pdev && Before(z, x) && Accepts(pci, table, z);
      y := FirstAcceptance(pci, table, z);
    }
  }

  // The first row of the table is a dummy: no device that the fourth pass takes has
  // its subdevice number.  The fifth pass looks for the same devices.
  ghost predicate DummyRow(pci: seq<Device>, table: seq<Row>) {
    |table| > 0 && forall x :: Accepts(pci, table, x) && x.scan == 3 ==> pci[x.pdev].subdevice != table[0].subdevice
  }

  ghost predicate OneSlotEach(boards: seq<Slot>) {
    forall i, j :: 0 <= i < j < |boards| ==> boards[i].pdev != boards[j].pdev
  }

  lemma FirstRows(pci: seq<Device>, table: seq<Row>, x: Slot)
    requires DummyRow(pci, table) && Assigned(pci, table, x)
    ensures First(pci, table, x)
  {}

  // Every device gets at most one slot, with the first pass and row that accept it,
  // exactly when the first row is a dummy.
  lemma SlotsAreUnique(pci: seq<Device>, table: seq<Row>, boards: seq<Slot>)
    requires FoundAll(pci, table, boards) && |table| > 0
    ensures OneSlotEach(boards) <==> DummyRow(pci, table)
    ensures DummyRow(pci, table) ==> forall x <- boards :: First(pci, table, x)
  {
    if DummyRow(pci, table) {
      forall x <- boards ensures First(pci, table, x) {
        FirstRows(pci, table, x);
      }
      forall i, j | 0 <= i < j < |boards| ensures boards[i].pdev != boards[j].pdev {
        assert boards[i] in boards && boards[j] in boards;
      }
    } else {
      var x :| Accepts(pci, table, x) && x.scan == 3 && pci[x.pdev].subdevice == table[0].subdevice;
      var y := Slot(4, 0, x.pdev);
      assert Accepts(pci, table, y);
      var z := FirstAcceptance(pci, table, x);
      assert y in boards && z in boards;
      var i :| 0 <= i < |boards| && boards[i] == y;
      var j :| 0 <= j < |boards| && boards[j] == z;
      assert i != j;
    }
  }

  // No device is left out that some pass would take.
  lemma NoneLeftOut(pci: seq<Device>, table: seq<Row>, boards: seq<Slot>, x: Slot)
    requires FoundAll(pci, table, boards) && Accepts(pci, table, x)
    ensures exists y :: y in boards && y.pdev == x.pdev && (y == x || Before(y, x))
  {
    var y := FirstAcceptance(pci, table, x);
    assert y in boards;
  }

  // Found boards are determined by the devices and the table.
  lemma {:induction false} OneOutcome(a: seq<Slot>, b: seq<Slot>)
    requires Sorted(a) && Sorted(b) && forall x :: x in a <==> x in b
    ensures a == b
    decreases |a|
  {
    if a == [] {
      assert forall k :: 0 <= k < |b| ==> b[k] in b;
    } else {
      assert a[0] in b && b[0] in a;
      var i :| 0 <= i < |a| && a[i] == b[0];
      var j :| 0 <= j < |b| && b[j] == a[0];
      assert i == 0 && j == 0;
      forall x ensures x in a[1..] <==> x in b[1..] {
        assert a == [a[0]] + a[1..] && b == [b[0]] + b[1..];
        assert a[0] !in a[1..] && b[0] !in b[1..];
        assert x in a <==> x == a[0] || x in a[1..];
        assert x in b <==> x == b[0] || x in b[1..];
      }
      OneOutcome(a[1..], b[1..]);
    }
  }

  lemma Skip(pci: seq<Device>, table: seq<Row>, boards: seq<Slot>, end: Slot, next: Slot)
    requires FoundUpTo(pci, table, boards, end)
    requires forall x :: Assigned(pci, table, x) ==> (Before(x, end) <==> Before(x, next))
    ensures FoundUpTo(pci, table, boards, next)
  {}

  function After(x: Slot): Slot {
    x.(pdev := x.pdev + 1)
  }

  lemma Refuse(pci: seq<Device>, table: seq<Row>, boards: seq<Slot>, x: Slot)
    requires FoundUpTo(pci, table, boards, x)
    requires !Accepts(pci, table, x) || (x.row > 0 && exists y <- boards :: y.pdev == x.pdev)
    ensures FoundUpTo(pci, table, boards, After(x))
  {}

  lemma Take(pci: seq<Device>, table: seq<Row>, boards: seq<Slot>, x: Slot)
    requires FoundUpTo(pci, table, boards, x) && Accepts(pci, table, x)
    requires x.row == 0 || forall y <- boards :: y.pdev != x.pdev
    ensures Assigned(pci, table, x) && FoundUpTo(pci, table, boards + [x], After(x))
  {
    var y := FirstAcceptance(pci, table, x);
    assert x.row == 0 || y == x;
    forall z ensures z in boards + [x] <==> Assigned(pci, table, z) && Before(z, After(x)) {
      assert Before(z, After(x)) <==> Before(z, x) || z == x;
    }
    assert forall i :: 0 <= i < |boards| ==> Before(boards[i], x) by {
      assert forall i :: 0 <= i < |boards| ==> boards[i] in boards;
    }
  }

  class Prober {
    const pci: seq<Device>
    const table: seq<Row>
    var boards: seq<Slot>

    constructor (pci: seq<Device>, table: seq<Row>)
      ensures this.pci == pci && this.table == table && boards == []
    {
      this.pci, this.table, boards := pci, table, [];
    }

    // pci_get_device: the next device of the pass after from; -1 stands for NULL.
    function GetDevice(scan: int, from: int): (next: int)
      requires -1 <= from < |pci|
      ensures next == -1 || (from < next < |pci| && Looks(scan, pci[next]))
      ensures forall i :: from < i < (if next == -1 then |pci| else next) ==> !Looks(scan, pci[i])
      decreases |pci| - from
    {
      if from + 1 == |pci| then -1
      else if Looks(scan, pci[from + 1]) then from + 1
      else GetDevice(scan, from + 1)
    }

    predicate Taken(pdev: int)
      reads this
    {
      exists x <- boards :: x.pdev == pdev
    }

    // No device of a pass, up to n, has subdevice number zero.
    ghost predicate Numbered(scan: int, n: int)
      requires n <= |pci|
    {
      forall i :: 0 <= i < n && Looks(scan, pci[i]) ==> pci[i].subdevice != 0
    }

    // The fourth pass compares part number, card type and number of GPIO channels.
    method SameCard(r: Row, d: Device) returns (same: bool)
      ensures same <==> Fits(3, r, d)
    {
      var gpioCardType, gpioChCnt := ((d.byte7 & 0x18) >> 3) as int, ((d.byte7 & 0x60) >> 5) as int;
      if gpioChCnt == 0 && gpioCardType == 1 {
        gpioChCnt := 6;
      } else if gpioChCnt == 0 && gpioCardType == 2 {
        gpioChCnt := 8;
      } else if gpioChCnt == 1 {
        gpioChCnt := 16;
      } else if gpioChCnt == 2 {
        gpioChCnt := 32;
      }
      if d.byte5 as int != r.part {
        return false;
      } else if gpioCardType != r.card {
        return false;
      } else if gpioChCnt != r.gpio {
        return false;
      }
      same := true;
    }

    // Why a pass may fail: a device without a subdevice number; a device of the
    // table that cannot be enabled; a fifth board.
    ghost predicate Explains(status: int)
      reads this
    {
      if status == -EIO then exists scan: int :: 0 <= scan < 5 && !Numbered(scan, |pci|)
      else if status == -ENXIO then
        exists x: Slot :: 0 <= x.scan < 5 && 0 <= x.row < |table| && 0 <= x.pdev < |pci| && Looks(x.scan, pci[x.pdev])
                          && pci[x.pdev].subdevice == table[x.row].subdevice && !pci[x.pdev].enables
      else
        status == -ENOSPC && |boards| == 4 &&
        exists x :: Assigned(pci, table, x) && FoundUpTo(pci, table, boards, x)
    }

    ghost predicate AllEnabled()
      reads this
    {
      forall x <- boards :: 0 <= x.pdev < |pci| && pci[x.pdev].enables
    }

    // One pass.
    method Scan(scan: int) returns (status: int)
      requires 0 <= scan < 5 && FoundUpTo(pci, table, boards, Slot(scan, 0, 0)) && |boards| <= 4
      requires AllEnabled() && |table| > 0
      modifies this`boards
      ensures |boards| <= 4
      ensures status == 0 ==> FoundUpTo(pci, table, boards, Slot(scan + 1, 0, 0)) && Numbered(scan, |pci|) && AllEnabled()
      ensures status != 0 ==> Explains(status)
    {
      status := 0;
      var pdev, tablecnt := -1, 0;
      while tablecnt < |table|
        invariant -1 <= pdev < |pci| && 0 <= tablecnt <= |table| && |boards| <= BOARDS_MAX
        invariant FoundUpTo(pci, table, boards, Slot(scan, tablecnt, pdev + 1))
        invariant Numbered(scan, if tablecnt == 0 then pdev + 1 else |pci|) && AllEnabled()
        decreases |table| - tablecnt, |pci| - pdev
      {
        ghost var from := Slot(scan, tablecnt, pdev + 1);
        pdev := GetDevice(scan, pdev);
        if pdev == -1 {
          Skip(pci, table, boards, from, Slot(scan, tablecnt + 1, 0));
          tablecnt := tablecnt + 1;
          continue;
        }
        ghost var here := Slot(scan, tablecnt, pdev);
        Skip(pci, table, boards, from, here);
        if tablecnt > 0 && Taken(pdev) {
          Refuse(pci, table, boards, here);
          continue;
        }
        if pci[pdev].subdevice == 0 {
          assert !Numbered(scan, |pci|);
          return -EIO;
        }
        if pci[pdev].subdevice != table[tablecnt].subdevice {
          Refuse(pci, table, boards, here);
          continue;
        }
        if !pci[pdev].enables {
          return -ENXIO;
        }
        if scan == 0 && table[tablecnt].part != 0 {
          Refuse(pci, table, boards, here);
          continue;
        }
        if scan == 3 {
          var same := SameCard(table[tablecnt], pci[pdev]);
          if !same {
            Refuse(pci, table, boards, here);
            continue;
          }
        }
        Take(pci, table, boards, here);
        if |boards| + 1 > BOARDS_MAX {
          return -ENOSPC;
        }
        boards := boards + [Slot(scan, tablecnt, pdev)];
      }
      Skip(pci, table, boards, Slot(scan, |table|, pdev + 1), Slot(scan + 1, 0, 0));
    }

    // The probe succeeds with all boards there are, one to four of them.
    method Probe() returns (status: int)
      requires |table| > 0
      modifies this`boards
      ensures status == 0 ==> FoundAll(pci, table, boards) && 1 <= |boards| <= 4 && AllEnabled()
      ensures status == 0 ==> forall scan :: 0 <= scan < 5 ==> Numbered(scan, |pci|)
      ensures status != 0 ==> Explains(status) || (status == -6 && forall x :: !Assigned(pci, table, x))
    {
      boards := [];
      for scan := 0 to SCANS
        invariant |boards| <= BOARDS_MAX && FoundUpTo(pci, table, boards, Slot(scan, 0, 0)) && AllEnabled()
        invariant forall k :: 0 <= k < scan ==> Numbered(k, |pci|)
      {
        status := Scan(scan);
        if status != 0 {
          return;
        }
      }
      assert FoundAll(pci, table, boards);
      if |boards| == 0 {
        return -ENXIO;
      }
      status := 0;
    }
  }
}
