/** Facts about products and remainders the solver does not find by itself. */
module Arithmetic {
  lemma {:induction false} ProductGrows(a: nat, b: nat, c: nat)
    requires a <= b
    ensures a * c <= b * c
    decreases b - a
  {
    if a < b {
      ProductGrows(a, b - 1, c);
      assert b * c == (b - 1) * c + c;
    }
  }

  lemma QuotientIsUnique(a: nat, b: nat, c: nat, d: nat, m: nat)
    requires a * m + b == c * m + d && b < m && d < m
    ensures a == c && b == d
  {
    if a < c { ProductGrows(a + 1, c, m); }
    if c < a { ProductGrows(c + 1, a, m); }
  }

  lemma RemainderOf(q: nat, m: nat, r: nat)
    requires r < m
    ensures (q * m + r) % m == r
  {
    var x := q * m + r;
    assert 0 <= q * m by { ProductGrows(0, q, m); }
    assert x == (x / m) * m + x % m;
    QuotientIsUnique(x / m, x % m, q, r, m);
  }

  /** Going back one period leaves the remainder. */
  lemma SameRemainder(p: nat, m: nat)
    requires 1 <= m <= p
    ensures (p - m) % m == p % m
  {
    var q, r := (p - m) / m, (p - m) % m;
    assert p - m == q * m + r;
    assert (q + 1) * m == q * m + m;
    RemainderOf(q + 1, m, r);
  }
}
