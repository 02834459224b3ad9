/** Powers of two and division facts that several codecs share. */
module Arithmetic {

  function Pow2(n: nat): (p: nat)
    ensures p > 0
  {
    if n == 0 then 1 else 2 * Pow2(n - 1)
  }

  lemma Doubled(a: nat, b: nat, c: nat)
    requires a == b * c
    ensures 2 * a == (2 * b) * c
  {
  }

  lemma {:induction false} Pow2Adds(m: nat, n: nat)
    ensures Pow2(m + n) == Pow2(m) * Pow2(n)
  {
    if m > 0 {
      Pow2Adds(m - 1, n);
      var rest := m - 1 + n;
      assert m + n - 1 == rest;
      Doubled(Pow2(rest), Pow2(m - 1), Pow2(n));
    }
  }

  lemma NextMultiple(a: nat, b: nat, p: nat)
    requires a < b
    ensures a * p + p <= b * p
  {
    var more := b - a - 1;
    assert b == a + 1 + more;
    assert b * p == a * p + p + more * p;
  }

  lemma DivModUnique(a: nat, r: nat, b: nat, s: nat, p: nat)
    requires r < p && s < p && a * p + r == b * p + s
    ensures a == b && r == s
  {
    if a < b {
      NextMultiple(a, b, p);
    } else if b < a {
      NextMultiple(b, a, p);
    }
  }

  lemma Remainder(x: nat, q: nat, r: nat, p: nat)
    requires x == q * p + r && r < p
    ensures x % p == r
  {
    DivModUnique(x / p, x % p, q, r, p);
  }

  lemma DivMod(x: nat, p: nat)
    requires p > 0
    ensures x == (x / p) * p + x % p
  {
  }
}
