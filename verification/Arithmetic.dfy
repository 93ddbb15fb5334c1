/** Division of natural numbers, one fact at a time. */
module Arithmetic {

  lemma Mono(d: nat, a: nat, b: nat)
    ensures a < b ==> d * a + d <= d * b
  {
    if a < b { assert d * b == d * (a + 1) + d * (b - a - 1); }
  }

  lemma Unique(a: nat, d: nat, q: nat, r: nat)
    requires d > 0 && a == d * q + r && r < d
    ensures a / d == q && a % d == r
  {
    Mono(d, a / d, q);
    Mono(d, q, a / d);
  }

  lemma Shifted(n: nat, d: nat)
    requires d > 0
    ensures n / 256 / d == n / (256 * d)
  {
    var a, x := n / 256, n % 256;
    var q, r := a / d, a % d;
    assert a == d * q + r;
    assert 256 * d * q == 256 * (d * q);
    Unique(n, 256 * d, q, 256 * r + x);
  }
}
