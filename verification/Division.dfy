// Quotients and remainders, where the verifier needs telling.
module Division {
  lemma Grows(p: nat, m: int, n: int)
    requires m <= n
    ensures p * m <= p * n
  {
  }

  lemma OneMore(n: int, p: int)
    ensures (n + 1) * p == n * p + p
  {
  }

  lemma Doubles(w: int, p: int)
    ensures w * (2 * p) == 2 * (w * p) && w * (2 * p + 1) == 2 * (w * p) + w && (2 * w) * p == 2 * (w * p)
  {
  }

  lemma HalveOf(a: int, w: int, q: int, r: int, p: int)
    requires a == w * q + r && 0 <= r < w && (q == 2 * p || q == 2 * p + 1)
    ensures (2 * w) * p <= a < (2 * w) * p + 2 * w
    ensures a - (2 * w) * p == r + if q == 2 * p then 0 else w
  {
    Doubles(w, p);
  }

  // Halving a quotient is dividing by twice as much.
  lemma Halve(a: nat, w: nat)
    requires w > 0
    ensures a / (2 * w) == a / w / 2
    ensures a % (2 * w) == a % w + if (a / w) % 2 == 1 then w else 0
  {
    HalveOf(a, w, a / w, a % w, a / w / 2);
    Quotient(a, 2 * w, a / w / 2);
  }

  lemma Floor(a: nat, p: nat)
    requires p > 0
    ensures (a / p) * p <= a < (a / p) * p + p && (a / p == 0 ==> a < p)
  {
  }

  lemma Quotient(a: nat, p: nat, q: nat)
    requires p > 0 && p * q <= a < p * q + p
    ensures a / p == q && a % p == a - p * q
  {
    var d := a / p;
    assert a == p * d + a % p;
    if d < q {
      Grows(p, d + 1, q);
    } else if d > q {
      Grows(p, q + 1, d);
    }
  }

  // Counting up by one, in quotient and remainder.
  lemma Successor(m: nat, d: nat)
    requires d > 0
    ensures m % d + 1 < d ==> (m + 1) / d == m / d && (m + 1) % d == m % d + 1
    ensures m % d + 1 == d ==> (m + 1) / d == m / d + 1 && (m + 1) % d == 0
  {
    var q := m / d;
    assert m == d * q + m % d;
    if m % d + 1 < d {
      Quotient(m + 1, d, q);
    } else {
      assert d * (q + 1) == d * q + d;
      Quotient(m + 1, d, q + 1);
    }
  }
}
