/** Quotients and remainders of naturals. */
module Arithmetic {

  lemma NextMultiple(p: int, q: int, m: nat)
    requires p < q
    ensures q * m >= p * m + m
  {
    assert q * m == p * m + m + (q - p - 1) * m;
  }

  lemma Quotients(a: nat, b: nat, m: nat)
    requires m > 0 && a <= b
    ensures a / m <= b / m
  {
    var p, q := a / m, b / m;
    assert a == p * m + a % m && b == q * m + b % m;
    if p > q {
      NextMultiple(q, p, m);
    }
  }

  /** Quotient and remainder are unique. */
  lemma Euclid(x: nat, q: nat, r: nat, m: nat)
    requires m > 0 && r < m && x == q * m + r
    ensures x / m == q && x % m == r
  {
    var p := x / m;
    assert x == p * m + x % m;
    if q > p {
      NextMultiple(p, q, m);
    } else if q < p {
      NextMultiple(q, p, m);
    }
  }

  lemma AddMultiple(a: nat, q: nat, m: nat)
    requires m > 0
    ensures (a + q * m) % m == a % m
  {
    var r, d := a % m, a / m;
    assert a == d * m + r;
    assert a + q * m == (d + q) * m + r;
    Euclid(a + q * m, d + q, r, m);
  }

  lemma ModStep(a: nat, b: nat, m: nat)
    requires m > 0
    ensures (256 * (a % m) + b) % m == (256 * a + b) % m
  {
    var q, r := a / m, a % m;
    assert a == q * m + r;
    assert 256 * a + b == (256 * r + b) + (256 * q) * m;
    AddMultiple(256 * r + b, 256 * q, m);
  }

  /** Equal remainders are a multiple of the modulus apart. */
  lemma Apart(a: nat, b: nat, m: nat)
    requires m > 0 && a <= b && a % m == b % m
    ensures (b - a) % m == 0
  {
    Quotients(a, b, m);
    var p, q := a / m, b / m;
    assert a == p * m + a % m && b == q * m + b % m;
    assert b - a == (q - p) * m + 0;
    Euclid(b - a, q - p, 0, m);
  }

  lemma Wrap(x: nat, m: nat)
    requires m > 0 && x < 2 * m
    ensures x % m == if x < m then x else x - m
  {
    if x < m {
      Euclid(x, 0, x, m);
    } else {
      Euclid(x, 1, x - m, m);
    }
  }

  lemma Successor(x: nat, m: nat)
    requires m > 0
    ensures x % m + 1 < m ==> (x + 1) / m == x / m && (x + 1) % m == x % m + 1
    ensures x % m + 1 == m ==> (x + 1) / m == x / m + 1 && (x + 1) % m == 0
  {
    var q, r := x / m, x % m;
    assert x == q * m + r;
    if r + 1 < m {
      Euclid(x + 1, q, r + 1, m);
    } else {
      assert x + 1 == (q + 1) * m + 0;
      Euclid(x + 1, q + 1, 0, m);
    }
  }

  lemma Ceiling(x: nat, m: nat)
    requires m > 0
    ensures (x + m - 1) / m == x / m + if x % m == 0 then 0 else 1
  {
    var q, r := x / m, x % m;
    assert x == q * m + r;
    if r == 0 {
      Euclid(x + m - 1, q, m - 1, m);
    } else {
      assert x + m - 1 == (q + 1) * m + (r - 1);
      Euclid(x + m - 1, q + 1, r - 1, m);
    }
  }

  lemma DivisionBelow(x: nat, n: nat, m: nat)
    requires x < n * m
    ensures m > 0 && x / m < n
  {
    if m > 0 {
      var q := x / m;
      assert x == q * m + x % m;
      if q > n {
        NextMultiple(n, q, m);
      }
    }
  }
}
