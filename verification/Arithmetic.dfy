/** The smaller of two numbers, and facts about products and remainders. */
module Arithmetic {
  function Min(a: nat, b: nat): (m: nat)
    ensures m <= a && m <= b && (m == a || m == b)
  {
    if a < b then a else b
  }

  lemma MonotoneProduct(a: int, b: int, p: nat)
    ensures a <= b ==> a * p <= b * p
  {
  }

  lemma ProductPositive(a: nat, b: nat)
    requires a > 0 && b > 0
    ensures a * b > 0
  {
  }

  lemma Remainder(x: nat, n: nat, q: nat, r: nat)
    requires 0 < n && r < n && x == q * n + r
    ensures x % n == r
  {
    var p := x / n;
    assert x == p * n + x % n;
    MonotoneProduct(q + 1, p, n);
    MonotoneProduct(p + 1, q, n);
  }

  /** A number that has gone round at most once. */
  lemma WrapOnce(x: nat, n: nat)
    requires 0 < n && x < 2 * n
    ensures x % n == if x < n then x else x - n
  {
    if x < n {
      Remainder(x, n, 0, x);
    } else {
      Remainder(x, n, 1, x - n);
    }
  }
}
