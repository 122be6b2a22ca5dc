/** Facts about multiplication and floor division that the solver does not find unaided. */
module Arith {

  lemma MulLe(x: int, y: int, k: nat)
    requires x <= y
    ensures k * x <= k * y
  {
    assert k * y - k * x == k * (y - x);
  }

  /** `q / d` is at least `m` when `q` holds `m` whole `d`s. */
  lemma DivAtLeast(q: int, d: int, m: int)
    requires d > 0 && d * m <= q
    ensures m <= q / d
  {
    if q / d < m {
      assert q == d * (q / d) + q % d;
      MulLe(q / d + 1, m, d);
      assert false;
    }
  }

  /** `q / d` is at most `m` when `q` is below `m + 1` whole `d`s. */
  lemma DivBelow(q: int, d: int, m: int)
    requires d > 0 && q < d * (m + 1)
    ensures q / d <= m
  {
    if q / d > m {
      assert q == d * (q / d) + q % d;
      MulLe(m + 1, q / d, d);
      assert false;
    }
  }

  lemma DivMonotone(a: int, b: int, k: int)
    requires a <= b && k > 0
    ensures a / k <= b / k
  {
    DivAtLeast(b, k, a / k) by {
      assert a == k * (a / k) + a % k;
    }
  }
}
