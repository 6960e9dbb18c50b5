// Facts about multiplication and division.

module Arithmetic {

  lemma Order(a: int, b: int, y: int)
    ensures a <= b && y >= 0 ==> a * y <= b * y
  {}

  lemma Squeeze(q: int, n: int, y: int)
    requires y > 0 && n * y <= q * y < n * y + y
    ensures q == n
  {
    Order(q + 1, n, y);
    Order(n + 1, q, y);
  }

  lemma DivMod(q: int, y: int, r: int)
    requires 0 <= r < y
    ensures (q * y + r) / y == q && (q * y + r) % y == r
  {
    var x := q * y + r;
    assert x == x / y * y + x % y;
    Order(x / y + 1, q, y);
    Order(q + 1, x / y, y);
  }
}
