/** Quotient and remainder are unique. */
module Division {

  lemma SmallMultiple(k: int, step: int)
    requires step >= 1 && 0 - step < k * step < step
    ensures k == 0
  {
    assert k >= 1 ==> k * step >= step;
    assert k <= -1 ==> k * step <= 0 - step;
  }

  lemma DivMod(k: nat, n: nat)
    requires n >= 1
    ensures k == k / n * n + k % n && k % n < n
  {
  }

  lemma Remainder(q: nat, step: nat, r: nat)
    requires r < step
    ensures (q * step + r) % step == r && (q * step + r) / step == q
  {
    var n := q * step + r;
    var d, m := n / step, n % step;
    assert n == d * step + m;
    assert (d - q) * step == r - m;
    SmallMultiple(d - q, step);
  }
}
