/** Integer facts the division questions rely on. Dafny's `/` and `%` are Euclidean. */
module Arithmetic {

  function Abs(x: int): (r: nat)
    ensures r == x || r == -x
  {
    if x < 0 then -x else x
  }

  lemma AbsMulAtLeast(d: int, k: int)
    requires d != 0 && k != 0
    ensures Abs(d * k) >= Abs(d)
  {
  }

  /** The quotient and remainder of a by d are the only q, m with a == d * q + m and 0 <= m < |d|. */
  lemma DivModUnique(a: int, d: int, q: int, m: int)
    requires d != 0 && a == d * q + m && 0 <= m < Abs(d)
    ensures a / d == q && a % d == m
  {
    var q', m' := a / d, a % d;
    assert d * (q - q') == m' - m;
    if q != q' {
      AbsMulAtLeast(d, q - q');
      assert false;
    }
  }

  /** An exact multiple of a nonzero d divides back to its factor. */
  lemma MultipleDivMod(j: int, d: int)
    requires d != 0
    ensures (j * d) % d == 0 && (j * d) / d == j
  {
    DivModUnique(j * d, d, j, 0);
  }

  /** If k is below the quotient of m by d, then k + 1 multiples of d still fit within m. */
  lemma BelowQuotient(m: int, d: int, k: int)
    requires d >= 1 && k < m / d
    ensures d * (k + 1) <= m
  {
    var c := m / d;
    assert m == d * c + m % d;
    var e := c - (k + 1);
    assert e >= 0;
    assert d * e >= 0;
    assert d * c == d * (k + 1) + d * e;
  }

  /** A multiple of d is its quotient by d times d. */
  lemma ExactQuotient(a: int, d: int)
    requires d != 0 && a % d == 0
    ensures a == (a / d) * d
  {
    assert a == d * (a / d) + a % d;
  }

  /** A multiple a of d whose quotient by d is below m's leaves room for one more d within m. */
  lemma QuotientBound(a: int, d: int, m: int)
    requires d >= 1 && a % d == 0 && a / d < m / d
    ensures a + d <= m
  {
    var k := a / d;
    ExactQuotient(a, d);
    BelowQuotient(m, d, k);
    assert d * (k + 1) == k * d + d;
  }

  /** A number whose magnitude is a multiple of |r| is a multiple of r. */
  lemma SignedMultiple(l: int, r: int, k: int)
    requires r != 0 && k >= 0 && Abs(l) == k * Abs(r)
    ensures l % r == 0 && l == (l / r) * r
  {
    var j := if (l < 0) == (r < 0) then k else -k;
    if l < 0 && r < 0 { assert l == -(k * -r); }
    else if l < 0 { assert l == -(k * r); }
    else if r < 0 { assert l == k * -r; }
    assert l == j * r;
    MultipleDivMod(j, r);
  }
}
