// Facts about / and % that the solver does not find alone.
module Division {

  lemma MulCancels(x: int, k: int, m: nat)
    requires x * m < k * m
    ensures x < k
  {
    if x >= k { MulOrder(k, x, m); }
  }

  lemma MulOrder(k: int, x: int, m: nat)
    requires k <= x
    ensures k * m <= x * m
  {
  }

  lemma Quotient(x: nat, m: nat, q: nat, r: nat)
    requires m > 0 && x == q * m + r && r < m
    ensures x / m == q && x % m == r
  {
    var y := x / m;
    assert x == y * m + x % m;
    assert y * m < (q + 1) * m;
    assert q * m < (y + 1) * m;
    MulCancels(y, q + 1, m);
    MulCancels(q, y + 1, m);
  }

  lemma DivAdd(a: nat, b: nat, m: nat)
    requires m > 0
    ensures (a * m + b) / m == a + b / m
  {
    var q, r := b / m, b % m;
    assert a * m + b == (a + q) * m + r;
    Quotient(a * m + b, m, a + q, r);
  }

  lemma Factored(x: nat, m: nat, k: nat)
    requires m > 0 && k > 0
    ensures m * k > 0
    ensures var q, r := x / (m * k), x % (m * k); x == q * k * m + r && r < k * m
  {
    assert m * k > 0;
    var q, r := x / (m * k), x % (m * k);
    assert x == q * (m * k) + r;
    assert q * (m * k) == q * k * m;
  }

  lemma QuotientOfFactored(x: nat, m: nat, k: nat, qk: nat, r: nat)
    requires m > 0 && k > 0 && x == qk * m + r && r < k * m
    ensures x / m == qk + r / m && r / m < k
  {
    DivAdd(qk, r, m);
    assert r / m * m <= r;
    MulCancels(r / m, k, m);
  }

  lemma DivSplit(x: nat, m: nat, k: nat, q: nat, r: nat)
    requires m > 0 && k > 0 && x == q * k * m + r && r < k * m
    ensures q == x / m / k && r / m == x / m % k
  {
    QuotientOfFactored(x, m, k, q * k, r);
    Quotient(x / m, k, q, r / m);
  }

  // Dividing by m * k is dividing by m and then by k.
  lemma DivOfProduct(x: nat, m: nat, k: nat)
    requires m > 0 && k > 0
    ensures m * k > 0 && x / (m * k) == x / m / k && x % (m * k) / m == x / m % k
  {
    Factored(x, m, k);
    DivSplit(x, m, k, x / (m * k), x % (m * k));
  }

  lemma ModAdd(a: nat, b: nat, m: nat)
    requires m > 0
    ensures (a * m + b) % m == b % m
  {
    var q, r := b / m, b % m;
    assert a * m + b == (a + q) * m + r;
    Quotient(a * m + b, m, a + q, r);
  }

  lemma ModOfMod(x: nat, m: nat, k: nat)
    requires m > 0 && k > 0
    ensures m * k > 0 && x % (m * k) % m == x % m
  {
    Factored(x, m, k);
    ModAdd(x / (m * k) * k, x % (m * k), m);
  }
}
