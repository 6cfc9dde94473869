/** Division of unsigned integers, and what bounds a quotient. */
module Quotients {
  // Division of unsigned integers drops the fraction.
  function Quotient(t: nat, n: nat): (q: nat)
    requires n > 0
    ensures n * q <= t < n * q + n
  {
    DivNonNegative(t, n);
    t / n
  }

  lemma DivNonNegative(t: nat, n: nat)
    requires n > 0
    ensures t / n >= 0 && n * (t / n) <= t < n * (t / n) + n
  {
    assert t == n * (t / n) + t % n;
  }

  lemma Commute(a: int, b: int)
    ensures a * b == b * a
  {}

  lemma Distribute(a: nat, n: nat)
    requires n > 0
    ensures a * n == a * (n - 1) + a
  {}

  lemma QuotientBetween(t: nat, n: nat, lo: nat, hi: nat)
    requires n > 0 && lo * n <= t <= hi * n
    ensures lo <= Quotient(t, n) <= hi
  {
    var q := Quotient(t, n);
    if q < lo {
      ProductGap(n, q, lo);
    } else if q > hi {
      ProductGap(n, hi, q);
    }
  }

  lemma {:induction false} ProductGap(n: nat, a: nat, b: nat)
    requires a < b
    ensures n * a + n <= b * n == n * b && a * n == n * a
  {
    Commute(b, n);
    Commute(a, n);
    if a + 1 < b {
      ProductGap(n, a, b - 1);
      Distribute(n, b);
    } else {
      Distribute(n, b);
    }
  }

  lemma QuotientSmall(t: nat, n: nat)
    requires t < n
    ensures Quotient(t, n) == 0
  {
    var q := Quotient(t, n);
    if q > 0 {
      ProductGap(n, 0, q);
    }
  }
}
