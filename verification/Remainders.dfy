/** Quotients and remainders of natural numbers. */
module Remainders {

  lemma QuotientsEqual(n: int, d: int, e: int)
    requires 0 < n && n * d == e && 0 - n < e < n
    ensures d == 0 && e == 0
  {
    assert d >= 1 ==> n * d >= n;
    assert d <= -1 ==> n * d <= 0 - n;
  }

  /** Division is determined by its law. */
  lemma DivisionIsUnique(x: nat, n: nat, q: nat, r: nat)
    requires 0 < n && r < n && x == n * q + r
    ensures x / n == q && x % n == r
  {
    var p := x / n;
    assert n * (p - q) == r - x % n;
    QuotientsEqual(n, p - q, r - x % n);
  }

  lemma DivisionLaw(x: nat, n: nat)
    requires 0 < n
    ensures x == n * (x / n) + x % n && x % n < n
  {
  }

  function Quotient(x: nat, n: nat): (q: nat)
    requires n > 1
    ensures x > 0 ==> q < x
  {
    DivisionLaw(x, n);
    QuotientSmaller(x, n, x / n, x % n);
    x / n
  }

  function Remainder(x: nat, n: nat): (r: nat)
    requires n > 1
    ensures r < n
  {
    DivisionLaw(x, n);
    x % n
  }

  lemma QuotientSmaller(x: nat, n: nat, q: nat, r: nat)
    requires n > 1 && x == n * q + r
    ensures x > 0 ==> q < x
  {
    assert n * q >= 2 * q;
  }

  lemma Divided(x: nat, n: nat)
    requires n > 1
    ensures x == n * Quotient(x, n) + Remainder(x, n)
  {
    DivisionLaw(x, n);
  }

  lemma DividedOnce(x: nat, n: nat, q: nat, r: nat)
    requires n > 1 && r < n && x == n * q + r
    ensures Quotient(x, n) == q && Remainder(x, n) == r
  {
    DivisionIsUnique(x, n, q, r);
  }
}
