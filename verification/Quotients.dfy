/** A few facts about integer quotients, shared by the rate limiter and the watchdog. */
module Quotients {

  lemma MulMono(m: int, p: int, q: int)
    requires m >= 0 && p <= q
    ensures m * p <= m * q && p * m <= q * m
  {
  }

  /** `q` whole steps of `d` fit into `y` exactly when `q` is at most the quotient. */
  lemma Fits(y: int, q: int, d: int)
    requires d > 0
    ensures y >= q * d <==> y / d >= q
  {
    assert y == (y / d) * d + y % d;
    if y / d >= q {
      MulMono(d, q, y / d);
    } else {
      MulMono(d, y / d + 1, q);
      assert (y / d + 1) * d == (y / d) * d + d;
    }
  }

  lemma DivMono(x: int, y: int, d: int)
    requires x <= y && d > 0
    ensures x / d <= y / d
  {
    Fits(x, x / d, d);
    Fits(y, x / d, d);
  }

  lemma NextQuotient(x: int, y: int, d: int)
    requires d > 0 && x + d <= y
    ensures x / d + 1 <= y / d
  {
    Fits(x, x / d, d);
    assert (x / d + 1) * d == (x / d) * d + d;
    Fits(y, x / d + 1, d);
  }

  /** Counting round a cycle of length `d`. */
  lemma NextRemainder(n: nat, d: int)
    requires d > 0
    ensures (n + 1) % d == if n % d == d - 1 then 0 else n % d + 1
  {
    var q, r := n / d, n % d;
    assert n == q * d + r;
    if r == d - 1 {
      assert n + 1 == (q + 1) * d by {
        assert (q + 1) * d == q * d + d;
      }
      RemainderIs(n + 1, q + 1, 0, d);
    } else {
      RemainderIs(n + 1, q, r + 1, d);
    }
  }

  lemma RemainderIs(n: int, q: int, r: int, d: int)
    requires 0 <= r < d && n == q * d + r
    ensures n % d == r
  {
    Fits(n, q, d);
    assert (q + 1) * d == q * d + d;
    Fits(n, q + 1, d);
    assert n / d == q;
    assert n == (n / d) * d + n % d;
  }
}
