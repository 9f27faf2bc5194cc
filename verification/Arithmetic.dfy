// Facts about products, quotients and powers of two that several modules share.

module Arithmetic {
  function Pow2(n: nat): (p: nat)
    ensures p > 0
  {
    if n == 0 then 1 else 2 * Pow2(n - 1)
  }

  lemma PowersOfTwo()
    ensures Pow2(0) == 1 && Pow2(2) == 4 && Pow2(4) == 16 && Pow2(6) == 64
    ensures Pow2(8) == 256 && Pow2(10) == 1024 && Pow2(12) == 4096
  {
    assert Pow2(1) == 2 && Pow2(3) == 8 && Pow2(5) == 32 && Pow2(7) == 128 && Pow2(9) == 512 && Pow2(11) == 2048;
  }

  lemma DivModUnique(x: int, m: int, q: int, r: int)
    requires m > 0 && x == q * m + r && 0 <= r < m
    ensures x / m == q && x % m == r
  {
    var d := q - x / m;
    assert d * m == x % m - r;
  }

  lemma MulMonotone(a: nat, b: nat, s: nat)
    requires a <= b
    ensures a * s <= b * s
  {
    assert (b - a) * s >= 0;
  }

  lemma DivBounds(m: nat, s: nat)
    requires s > 0
    ensures m / s * s <= m < (m / s + 1) * s
  {
    assert m == m / s * s + m % s;
  }
}
