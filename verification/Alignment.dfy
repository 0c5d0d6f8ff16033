/** Rounding up to a multiple, as the instance buffer and the arena both do. */
module Alignment {

  function NextMultiple(n: nat, m: nat): nat
    requires m > 0
  {
    if n % m == 0 then n else n + (m - n % m)
  }

  lemma MulAtLeast(m: nat, k: nat)
    requires k >= 1
    ensures m * k >= m
  {
  }

  lemma DivisionUnique(x: nat, m: nat, q: nat, r: nat)
    requires m > 0 && r < m && x == m * q + r
    ensures x / m == q && x % m == r
  {
    var q', r' := x / m, x % m;
    assert x == m * q' + r';
    assert m * (q - q') == r' - r;
    assert q <= q' by {
      if q > q' { MulAtLeast(m, q - q'); }
    }
    assert q' <= q by {
      if q' > q {
        assert m * (q' - q) == r - r';
        MulAtLeast(m, q' - q);
      }
    }
  }

  /** `NextMultiple` is the least multiple that is not below its argument. */
  lemma NextMultipleIsLeast(n: nat, m: nat, k: nat)
    requires m > 0
    ensures NextMultiple(n, m) % m == 0 && n <= NextMultiple(n, m) < n + m
    ensures k % m == 0 && n <= k ==> NextMultiple(n, m) <= k
  {
    var q, r := n / m, n % m;
    assert n == m * q + r;
    if r > 0 {
      assert n + (m - r) == m * (q + 1) + 0;
      DivisionUnique(n + (m - r), m, q + 1, 0);
      if k % m == 0 && n <= k {
        assert k == m * (k / m);
        assert k / m > q by {
          if k / m <= q { MulMonotone(m, k / m, q); }
        }
        MulMonotone(m, q + 1, k / m);
      }
    }
  }

  lemma MulMonotone(m: nat, a: nat, b: nat)
    requires a <= b
    ensures m * a <= m * b
  {
  }

  lemma NextMultipleMonotone(a: nat, b: nat, m: nat)
    requires m > 0 && a <= b
    ensures NextMultiple(a, m) <= NextMultiple(b, m)
  {
    NextMultipleIsLeast(b, m, 0);
    NextMultipleIsLeast(a, m, NextMultiple(b, m));
  }
}
