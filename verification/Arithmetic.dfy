/** The few facts about division with remainder and powers of two that the containers need. */
module Arithmetic {

  lemma MulMono(a: nat, b: nat, n: nat)
    requires a <= b
    ensures a * n <= b * n
  {
    assert b * n == a * n + (b - a) * n;
  }

  /** Quotient and remainder are determined by the decomposition. */
  lemma DivModUnique(a: nat, n: nat, q: nat, r: nat)
    requires n > 0 && r < n && a == q * n + r
    ensures a / n == q && a % n == r
  {
    var q', r' := a / n, a % n;
    assert a == q' * n + r';
    assert (q' + 1) * n == q' * n + n && (q + 1) * n == q * n + n;
    if q' < q {
      MulMono(q' + 1, q, n);
    } else if q < q' {
      MulMono(q + 1, q', n);
    }
  }

  /** Going once around the ring leads to the same place. */
  lemma AddPeriod(a: nat, n: nat)
    requires n > 0
    ensures (a + n) % n == a % n
  {
    var q, r := a / n, a % n;
    assert a == q * n + r;
    assert (q + 1) * n == q * n + n;
    DivModUnique(a + n, n, q + 1, r);
  }

  /** Different numbers with the same remainder are at least a period apart. */
  lemma SameRemainder(a: nat, b: nat, n: nat)
    requires n > 0 && a % n == b % n && a < b
    ensures b >= a + n
  {
    MultiplesApart(a / n, b / n, n);
  }

  lemma MultiplesApart(p: nat, q: nat, n: nat)
    requires p * n < q * n
    ensures q * n >= p * n + n
  {
    if q <= p {
      MulMono(q, p, n);
    } else {
      MulMono(p + 1, q, n);
      assert (p + 1) * n == p * n + n;
    }
  }

  /** Unsigned 32-bit arithmetic is modulo this. */
  const WRAP: nat := 0x1_0000_0000

  function Pow2(n: nat): (r: nat)
    ensures r > 0
  {
    if n == 0 then 1 else 2 * Pow2(n - 1)
  }

  lemma {:induction false} Pow2Mono(a: nat, b: nat)
    requires a <= b
    ensures Pow2(a) <= Pow2(b)
  {
    if a < b { Pow2Mono(a, b - 1); }
  }

  lemma Pow2Strict(a: nat, b: nat)
    requires Pow2(a) < Pow2(b)
    ensures a < b
  {
    if b <= a { Pow2Mono(b, a); }
  }

  lemma {:induction false} Pow2Sum(a: nat, b: nat)
    ensures Pow2(a + b) == Pow2(a) * Pow2(b)
  {
    if a > 0 {
      Pow2Sum(a - 1, b);
      assert Pow2(a + b) == 2 * Pow2(a - 1 + b);
      assert 2 * (Pow2(a - 1) * Pow2(b)) == (2 * Pow2(a - 1)) * Pow2(b);
    }
  }

  lemma WrapIsPow2()
    ensures Pow2(32) == WRAP
  {
    assert Pow2(4) == 16;
    Pow2Sum(4, 4);
    Pow2Sum(8, 8);
    Pow2Sum(16, 16);
  }
}
