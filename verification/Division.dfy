/** Facts about multiples, quotients and rests. */
module Division {

  lemma AtLeastOnce(q: int, m: nat)
    requires q >= 1
    ensures q * m >= m
  {
    assert (q - 1) * m >= 0;
  }

  /** Quotient and rest are unique. */
  lemma DivisionIsUnique(x: int, q: int, m: nat, r: nat)
    requires m > 0 && r < m && x == q * m + r
    ensures x / m == q && x % m == r
  {
    var d := x / m - q;
    assert x == x / m * m + x % m;
    assert d * m == r - x % m;
    if d >= 1 {
      AtLeastOnce(d, m);
      assert false;
    }
    if d <= -1 {
      AtLeastOnce(-d, m);
      assert false;
    }
  }
}
