/** Quotients and remainders. */
module Division {

  lemma MoreMultiples(j: int, k: int, n: nat)
    requires k < j
    ensures k * n + n <= j * n
  {
    assert (j - k - 1) * n >= 0;
    assert j * n == (j - k - 1) * n + (k + 1) * n;
  }

  lemma OneQuotient(q: int, r: int, k: int, t: int, n: nat)
    requires q * n + r == k * n + t && 0 <= r < n && 0 <= t < n
    ensures q == k && r == t
  {
    if q > k { MoreMultiples(q, k, n); } else if q < k { MoreMultiples(k, q, n); }
  }

  lemma Remainder(t: nat, n: nat)
    requires t < n
    ensures t % n == t
  {
  }

  /** d is the remainder of r exactly when it is small enough and differs from r by a multiple of n. */
  lemma Residue(r: nat, d: int, n: nat)
    requires n > 0
    ensures d == r % n <==> 0 <= d < n && (r - d) % n == 0
  {
    var k, e := (r - d) / n, (r - d) % n;
    assert r - d == k * n + e && r == (r / n) * n + r % n;
    if 0 <= d < n && e == 0 { OneQuotient(k, d, r / n, r % n, n); }
    if d == r % n { OneQuotient(k, e, r / n, 0, n); }
  }
}
