/** Money on quotients: round half to even, on exact rationals. */
module Rounding {
  /** `r` is an integer nearest to n / d, and the even one of two nearest. */
  predicate Nearest(n: int, d: int, r: int) {
    && -d <= 2 * (n - d * r) <= d
    && (2 * (n - d * r) == d || 2 * (n - d * r) == -d ==> r % 2 == 0)
  }

  /** `quantize` of n / d in units of the quantum. */
  function RoundDiv(n: int, d: int): (r: int)
    requires d > 0
    ensures Nearest(n, d, r)
  {
    var q, rest := n / d, n % d;
    assert n == d * q + rest;
    assert d * (q + 1) == d * q + d;
    if 2 * rest < d || (2 * rest == d && q % 2 == 0) then q else q + 1
  }

  lemma Multiple(d: int, k: int)
    requires d > 0
    ensures k >= 2 ==> d * k >= 2 * d
    ensures k <= -2 ==> d * k <= -2 * d
  {
    assert d * k == d * 2 + d * (k - 2) && d * k == d * (k + 2) - d * 2;
  }

  /** The nearest integer is unique. */
  lemma NearestUnique(n: int, d: int, r: int, r': int)
    requires d > 0 && Nearest(n, d, r) && Nearest(n, d, r')
    ensures r == r'
  {
    var k, p, p' := r' - r, d * r, d * r';
    assert p' - p == d * k;
    Multiple(d, k);
    assert d * k == if k == 1 then d else if k == -1 then -d else 0;
  }

  lemma RoundNegated(n: int, d: int)
    requires d > 0
    ensures RoundDiv(-n, d) == -RoundDiv(n, d)
  {
    var r := RoundDiv(n, d);
    assert d * -r == -(d * r);
    NearestUnique(-n, d, RoundDiv(-n, d), -r);
  }

  lemma RoundExact(k: int, d: int)
    requires d > 0
    ensures RoundDiv(d * k, d) == k
  {
    NearestUnique(d * k, d, RoundDiv(d * k, d), k);
  }
}
