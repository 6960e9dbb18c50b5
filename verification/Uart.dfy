// The UART's registers as the driver sees them: eight offsets, with the divisor
// latch behind offsets 0 and 1 while the DLAB bit of the line control is set.

module Uart {
  import opened Arithmetic

  const TX: nat := 0      // and DLL
  const IER: nat := 1     // and DLM
  const FCR: nat := 2
  const LCR: nat := 3
  const MCR: nat := 4

  const IER_RDI: bv8 := 0x01
  const IER_THRI: bv8 := 0x02
  const IER_RLSI: bv8 := 0x04
  const IER_MSI: bv8 := 0x08
  const CLK_DIVIDER_DISABLE: bv8 := 0x10    // on a SUN1699

  const LCR_WLEN8: bv8 := 0x03
  const LCR_SBC: bv8 := 0x40
  const LCR_DLAB: bv8 := 0x80

  datatype Regs = Regs(thr: seq<bv8>, ier: bv8, fcr: bv8, lcr: bv8, mcr: bv8, dll: bv8, dlm: bv8)

  predicate LatchOpen(u: Regs) {
    u.lcr & LCR_DLAB != 0
  }

  function OutB(u: Regs, offset: nat, v: bv8): Regs {
    if offset == TX then
      if LatchOpen(u) then u.(dll := v) else u.(thr := u.thr + [v])
    else if offset == IER then
      if LatchOpen(u) then u.(dlm := v) else u.(ier := v)
    else if offset == FCR then u.(fcr := v)
    else if offset == LCR then u.(lcr := v)
    else if offset == MCR then u.(mcr := v)
    else u
  }

  // The register map of a 16550 UART, in numbers.
  lemma RegisterMap(u: Regs, v: bv8)
    ensures u.lcr & 0x80 == 0 ==> OutB(u, 0, v) == u.(thr := u.thr + [v]) && OutB(u, 1, v) == u.(ier := v)
    ensures u.lcr & 0x80 != 0 ==> OutB(u, 0, v) == u.(dll := v) && OutB(u, 1, v) == u.(dlm := v)
    ensures OutB(u, 2, v) == u.(fcr := v) && OutB(u, 3, v) == u.(lcr := v) && OutB(u, 4, v) == u.(mcr := v)
    ensures [TX, IER, FCR, LCR, MCR] == [0, 1, 2, 3, 4]
  {}

  // ---- Bytes as numbers ----

  function Digit(b: bool, weight: nat): nat {
    if b then weight else 0
  }

  // The number four bits stand for
  function NibbleValue(b: bv8): nat {
    Digit(b & 0x01 != 0, 1) + Digit(b & 0x02 != 0, 2) + Digit(b & 0x04 != 0, 4) + Digit(b & 0x08 != 0, 8)
  }

  function Value(b: bv8): nat {
    NibbleValue(b & 0x0F) + 16 * NibbleValue(b >> 4)
  }

  function FromBits(b0: bool, b1: bool, b2: bool, b3: bool): bv8 {
    (if b0 then 0x01 else 0) | (if b1 then 0x02 else 0) | (if b2 then 0x04 else 0) | (if b3 then 0x08 else 0)
  }

  function ToNibble(n: nat): bv8 {
    FromBits(n % 2 == 1, n / 2 % 2 == 1, n / 4 % 2 == 1, n / 8 % 2 == 1)
  }

  // The low byte of a number, as outb sends it
  function ToByte(n: nat): bv8 {
    ToNibble(n) | (ToNibble(n / 16) << 4)
  }

  lemma FromBitsValue(b0: bool, b1: bool, b2: bool, b3: bool)
    ensures FromBits(b0, b1, b2, b3) & 0xF0 == 0
    ensures NibbleValue(FromBits(b0, b1, b2, b3)) == Digit(b0, 1) + Digit(b1, 2) + Digit(b2, 4) + Digit(b3, 8)
  {}

  // The last digits of a number, split in two
  lemma TwoDigits(n: nat, y: nat, z: nat)
    requires y > 0 && z > 0
    ensures y * z > 0 && n % (y * z) == n % y + y * (n / y % z)
  {
    var q, r := n / y / z, n / y % z;
    Order(1, z, y);
    assert n / y == q * z + r;
    assert n == q * (y * z) + (y * r + n % y) by {
      assert n == (q * z + r) * y + n % y;
    }
    Order(r + 1, z, y);
    DivMod(q, y * z, y * r + n % y);
  }

  lemma FourDigits(n: nat)
    ensures n % 16 == Digit(n % 2 == 1, 1) + Digit(n / 2 % 2 == 1, 2) + Digit(n / 4 % 2 == 1, 4) + Digit(n / 8 % 2 == 1, 8)
  {
    TwoDigits(n, 8, 2);
    TwoDigits(n, 4, 2);
    TwoDigits(n, 2, 2);
  }

  lemma ToNibbleValue(n: nat)
    ensures ToNibble(n) & 0xF0 == 0 && NibbleValue(ToNibble(n)) == n % 16
  {
    FromBitsValue(n % 2 == 1, n / 2 % 2 == 1, n / 4 % 2 == 1, n / 8 % 2 == 1);
    FourDigits(n);
  }

  lemma Halves(low: bv8, high: bv8)
    requires low & 0xF0 == 0 && high & 0xF0 == 0
    ensures (low | (high << 4)) & 0x0F == low && (low | (high << 4)) >> 4 == high
  {}

  lemma ToByteValue(n: nat)
    ensures Value(ToByte(n)) == n % 256
  {
    ToNibbleValue(n);
    ToNibbleValue(n / 16);
    Halves(ToNibble(n), ToNibble(n / 16));
    TwoDigits(n, 16, 16);
  }

  // The 16-bit divisor latch.
  function Latch(u: Regs): nat {
    Value(u.dll) + 256 * Value(u.dlm)
  }

  // The two bytes of a divisor make its low 16 bits.
  lemma LatchBytes(u: Regs, quot: nat)
    requires u.dll == ToByte(quot) && u.dlm == ToByte(quot / 256)
    ensures Latch(u) == quot % 65536
  {
    ToByteValue(quot);
    ToByteValue(quot / 256);
    TwoDigits(quot, 256, 256);
  }
}
