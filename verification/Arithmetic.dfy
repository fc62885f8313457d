/** The little arithmetic that the solver does not do on its own. */
module Arithmetic {

  lemma {:induction false} MulStrict(d: nat, p: nat, q: nat)
    ensures p > q ==> d * p >= d * q + d
    decreases p
  {
    if p > q {
      assert d * p == d * (p - 1) + d;
      MulStrict(d, p - 1, q);
    }
  }

  /** Quotient and remainder are unique. */
  lemma ModUnique(n: nat, c: nat, q: nat, r: nat)
    requires c > 0 && n == c * q + r && r < c
    ensures n % c == r
  {
    assert n == c * (n / c) + n % c;
    MulStrict(c, n / c, q);
    MulStrict(c, q, n / c);
  }

  lemma ModSmall(a: nat, len: nat)
    requires a < 2 * len
    ensures a % len == if a < len then a else a - len
  {
  }

  lemma DivBound(n: nat, d: nat, k: nat)
    requires d > 0 && n <= d * k
    ensures n / d <= k
  {
  }
}
