/** Quotients and remainders with variable divisors. */
module Division {
  lemma Multiples(x: int, e: nat)
    ensures x >= 1 ==> x * e >= e
    ensures x <= -1 ==> x * e <= 0 - e
  {
    if x >= 1 {
      assert x * e == (x - 1) * e + e;
    } else if x <= -1 {
      assert x * e == (x + 1) * e - e;
    }
  }

  /** Quotient and remainder are unique. */
  lemma Quotient(n: nat, d: nat, q: nat, r: nat)
    requires n == d * q + r && r < d
    ensures n / d == q && n % d == r
  {
    assert (n / d - q) * d == r - n % d;
    Multiples(n / d - q, d);
  }

  lemma Regrouped(n: nat, d: nat, c: nat, a: nat, s: nat, r: nat)
    requires n == d * (c * a + s) + r && s < c && r < d
    ensures n == c * d * a + (s * d + r) && 0 <= s * d + r < c * d
  {
    assert d * (c * a + s) == c * d * a + s * d;
    assert (c - s) * d == c * d - s * d;
    Multiples(c - s, d);
  }

  /** Dividing in two steps. */
  lemma DivDiv(n: nat, d: nat, c: nat)
    requires d > 0 && c > 0
    ensures n / (c * d) == n / d / c
  {
    var q, r := n / d, n % d;
    var a, s := q / c, q % c;
    Regrouped(n, d, c, a, s, r);
    Quotient(n, c * d, a, s * d + r);
  }

  /** Counting up by one. */
  lemma CountUp(x: nat, d: nat, q: nat, r: nat)
    requires x == d * q + r && r < d
    ensures if r + 1 >= d then (x + 1) / d == q + 1 && (x + 1) % d == 0
            else (x + 1) / d == q && (x + 1) % d == r + 1
  {
    if r + 1 >= d {
      assert d * (q + 1) == d * q + d;
      Quotient(x + 1, d, q + 1, 0);
    } else {
      Quotient(x + 1, d, q, r + 1);
    }
  }
}
