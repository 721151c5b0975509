/** Quotients and remainders by a number that is not a constant. */
module Modular {

  lemma Multiples(n: nat, d: int)
    ensures d >= 1 ==> n * d >= n
    ensures d <= -1 ==> n * d + n <= 0
    ensures d == 0 ==> n * d == 0
  {}

  lemma Distributes(n: nat, a: int, b: int)
    ensures n * (a - b) == n * a - n * b
  {}

  /** Quotient and remainder are determined by what they add up to. */
  lemma Unique(x: int, n: nat, q: int, r: nat)
    requires n > 0 && x == n * q + r && r < n
    ensures x / n == q && x % n == r
  {
    Distributes(n, q, x / n);
    Multiples(n, q - x / n);
  }

  lemma NextRemainder(k: nat, n: nat)
    requires n > 0
    ensures (k % n + 1) % n == (k + 1) % n
  {
    var q, r := k / n, k % n;
    if r + 1 < n {
      Unique(k + 1, n, q, r + 1);
      Unique(r + 1, n, 0, r + 1);
    } else {
      assert n * (q + 1) == n * q + n;
      Unique(k + 1, n, q + 1, 0);
      Unique(r + 1, n, 1, 0);
    }
  }

  /** Numbers less than `n` apart have different remainders. */
  lemma RemaindersDiffer(j: nat, k: nat, n: nat)
    requires j < k < j + n
    ensures j % n != k % n
  {
    Distributes(n, k / n, j / n);
    Multiples(n, k / n - j / n);
  }
}
