/** Division facts that the index and page arithmetic needs. */
module Arithmetic {

  lemma DivStep(x: nat, n: nat)
    requires n > 0 && x > 0
    ensures x % n == 0 ==> x / n == (x - 1) / n + 1 && (x - 1) % n == n - 1
    ensures x % n != 0 ==> x / n == (x - 1) / n && (x - 1) % n == x % n - 1
  {
    var q, m := (x - 1) / n, (x - 1) % n;
    assert x - 1 == n * q + m;
    if m == n - 1 {
      DivUnique(x, n, q + 1, 0);
    } else {
      DivUnique(x, n, q, m + 1);
    }
  }

  lemma DivUnique(x: nat, n: nat, q: nat, m: nat)
    requires n > 0 && m < n && x == n * q + m
    ensures x / n == q && x % n == m
  {
    var d := x / n - q;
    assert n * d == m - x % n;
  }
}
