// The parallel port's control register (DCR) and the driver's shadow of it
// (driver/snx_common.h, driver/snx_parallel.c).
//
// Every control access goes through one read-modify-write primitive that works
// on the shadow, masks the result with ctr_writable and writes it out.

module ControlRegister {

  const STROBE: bv8 := 0x01
  const AUTOFD: bv8 := 0x02
  const INIT: bv8 := 0x04
  const SELECT: bv8 := 0x08
  const IRQ_ENABLE: bv8 := 0x10
  const DIRECTION: bv8 := 0x20

  // The four peripheral control lines a client may drive.
  const LINES: bv8 := 0x0F

  // priv->ctr_writable, ~0x10 truncated to unsigned char
  const CTR_WRITABLE: bv8 := 0xEF

  const INITIAL_CTR: bv8 := 0x0C

  // The byte the read-modify-write primitive computes, writes and remembers.
  function Frob(ctr: bv8, mask: bv8, val: bv8): bv8 {
    ((ctr & !mask) ^ val) & CTR_WRITABLE
  }

  // Shadow after a full control write: the direction bit can only be raised.
  function WriteControl(ctr: bv8, d: bv8): bv8 {
    var c := if d & DIRECTION != 0 then Frob(ctr, DIRECTION, DIRECTION) else ctr;
    Frob(c, LINES, d & LINES)
  }

  // Shadow after a masked control change.
  function FrobControl(ctr: bv8, mask: bv8, val: bv8): bv8 {
    var c :=
      if mask & DIRECTION != 0 then
        if val & DIRECTION != 0 then Frob(ctr, DIRECTION, DIRECTION) else Frob(ctr, DIRECTION, 0)
      else ctr;
    Frob(c, mask & LINES, val & LINES)
  }

  function ReadControl(ctr: bv8): bv8 {
    ctr & LINES
  }

  // The register never holds a bit outside ctr_writable.
  predicate Writable(ctr: bv8) {
    ctr & CTR_WRITABLE == ctr
  }

  // What a full control write means to a client: it reads back its four lines,
  // the interrupt-enable bit stays off, and the direction is forward only if it
  // already was and the write did not ask for reverse.
  lemma WriteControlReadsBack(ctr: bv8, d: bv8)
    requires Writable(ctr)
    ensures ReadControl(WriteControl(ctr, d)) == d & 0x0F
    ensures WriteControl(ctr, d) & 0x10 == 0 && Writable(WriteControl(ctr, d))
    ensures WriteControl(ctr, d) & 0x20 == (ctr | d) & 0x20
    ensures WriteControl(WriteControl(ctr, d), d) == WriteControl(ctr, d)
  {}

  // A masked change moves exactly the lines and the direction bit in the mask
  // (for a value inside the mask) and leaves the others.
  lemma FrobControlIsMasked(ctr: bv8, mask: bv8, val: bv8)
    requires Writable(ctr) && val & !mask == 0
    ensures ReadControl(FrobControl(ctr, mask, val)) == ((ctr & !mask) | val) & 0x0F
    ensures FrobControl(ctr, mask, val) & 0x20 == ((ctr & !mask) | val) & 0x20
    ensures Writable(FrobControl(ctr, mask, val))
  {}

  // Bits in the mask have become those of the value, the others are toggled by it, and
  // the interrupt-enable bit is off.
  predicate Frobbed(ctr: bv8, mask: bv8, val: bv8, c: bv8) {
    c & 0x10 == 0 && c & mask & 0xEF == val & mask & 0xEF && c & !mask & 0xEF == (ctr ^ val) & !mask & 0xEF
  }

  lemma FrobInside(ctr: bv8, mask: bv8, val: bv8)
    ensures Frob(ctr, mask, val) & mask & 0xEF == val & mask & 0xEF && Frob(ctr, mask, val) & 0x10 == 0
  {}

  lemma FrobOutside(ctr: bv8, mask: bv8, val: bv8)
    ensures Frob(ctr, mask, val) & !mask & 0xEF == (ctr ^ val) & !mask & 0xEF
  {}

  // The primitive does that, whatever the value.
  lemma FrobBits(ctr: bv8, mask: bv8, val: bv8)
    ensures Frobbed(ctr, mask, val, Frob(ctr, mask, val))
  {
    FrobInside(ctr, mask, val);
    FrobOutside(ctr, mask, val);
  }

  // What can be written is everything but the interrupt-enable bit.
  lemma WritableBits(ctr: bv8)
    ensures Writable(ctr) <==> ctr & 0x10 == 0
    ensures Writable(INITIAL_CTR) && ReadControl(INITIAL_CTR) == 0x0C && ReadControl(ctr) == ctr & 0x0F
  {}
}
