/** Quotients and remainders, shared by the modules that compute with them. */
module Arithmetic {

  lemma Monotone(a: nat, b: nat, c: nat)
    requires a <= b
    ensures a * c <= b * c
  {
  }

  /** The quotient is the number of whole c's in x. */
  lemma QuotientIs(x: nat, k: nat, c: nat)
    requires c > 0 && k * c <= x < k * c + c
    ensures x / c == k && x % c == x - k * c
  {
    var q := x / c;
    assert x == q * c + x % c;
    assert (q + 1) * c == q * c + c && (k + 1) * c == k * c + c;
    if q < k { Monotone(q + 1, k, c); } else if q > k { Monotone(k + 1, q, c); }
  }

  /** Whole c's do not change the remainder. */
  lemma MultipleMod(k: nat, r: nat, c: nat)
    requires c > 0
    ensures (k * c + r) % c == r % c
  {
    var q := r / c;
    assert r == q * c + r % c;
    assert (k + q) * c == k * c + q * c;
    QuotientIs(k * c + r, k + q, c);
  }
}
