/**
  Facts about Euclidean division by a positive modulus, used for the
  counters that run modulo 24, 200 and interval + 1 and for the 16-bit
  accumulator.
*/
module Modular {
  /** Division is unique: x = q * m + r with 0 <= r < m gives the quotient q and the remainder r. */
  lemma DivModUnique(x: int, q: int, r: int, m: int)
    requires m > 0 && 0 <= r < m && x == q * m + r
    ensures x / m == q && x % m == r
  {
    var d := x / m - q;
    assert x / m * m + x % m == x;
    assert d * m == r - x % m;
    MultipleOutsideBand(d, m);
  }

  /** A non-zero multiple of m is at least m away from zero. */
  lemma MultipleOutsideBand(d: int, m: int)
    requires m > 0
    ensures d >= 1 ==> d * m >= m
    ensures d <= -1 ==> d * m <= -m
  {
    if d >= 1 {
      assert d * m == (d - 1) * m + m;
    } else if d <= -1 {
      assert d * m == (d + 1) * m - m;
    }
  }

  /**
    Counting one further modulo m: the remainder goes back to 0 after m - 1,
    and the quotient then grows by one; otherwise the remainder grows by one.
  */
  lemma Successor(k: nat, m: nat)
    requires m > 0
    ensures (k + 1) % m == if k % m == m - 1 then 0 else k % m + 1
    ensures (k + 1) / m == if k % m == m - 1 then k / m + 1 else k / m
  {
    var q, r := k / m, k % m;
    assert k == q * m + r;
    if r == m - 1 {
      DivModUnique(k + 1, q + 1, 0, m);
    } else {
      DivModUnique(k + 1, q, r + 1, m);
    }
  }

  /** Reducing the first summand first does not change the remainder of a sum. */
  lemma AddReduced(x: int, y: int, m: int)
    requires m > 0
    ensures (x % m + y) % m == (x + y) % m
  {
    var q, r := x / m, x % m;
    assert x == q * m + r;
    var q2, r2 := (r + y) / m, (r + y) % m;
    assert r + y == q2 * m + r2;
    assert x + y == (q + q2) * m + r2;
    DivModUnique(x + y, q + q2, r2, m);
  }
}
