/** The few facts about products and quotients that the accounting needs. */
module Arithmetic {

  lemma Distribute(a: int, b: int, c: int)
    ensures a * (b + c) == a * b + a * c
  {
  }

  lemma MultiplyMonotone(a: nat, b: int, c: int)
    requires b <= c
    ensures a * b <= a * c
  {
    Distribute(a, b, c - b);
  }

  /** The quotient is the largest factor that fits. */
  lemma QuotientIsLargest(x: nat, m: nat, q: nat)
    requires m > 0 && m * q <= x
    ensures q <= x / m
  {
    QuotientFits(x, m);
    if q > x / m {
      MultiplyMonotone(m, x / m + 1, q);
      Distribute(m, x / m, 1);
    }
  }

  lemma QuotientFits(x: nat, m: nat)
    requires m > 0
    ensures m * (x / m) <= x < m * (x / m) + m
  {
  }

  /** Rounding down twice loses at least as much as rounding down once. */
  lemma QuotientsAdd(x: nat, y: nat, m: nat)
    requires m > 0
    ensures x / m + y / m <= (x + y) / m
  {
    QuotientFits(x, m);
    QuotientFits(y, m);
    Distribute(m, x / m, y / m);
    QuotientIsLargest(x + y, m, x / m + y / m);
  }

  lemma ExactQuotient(m: nat, q: nat)
    requires m > 0
    ensures (m * q) / m == q && (m * q) % m == 0
  {
    QuotientIsLargest(m * q, m, q);
    QuotientFits(m * q, m);
    if (m * q) / m > q {
      MultiplyMonotone(m, q + 1, (m * q) / m);
      Distribute(m, q, 1);
    }
  }

  /** Batches counted in two steps are no more than the batches of the sum. */
  lemma BatchesCombine(first: nat, rest: nat, m: nat, batch: nat, a: nat, b: nat)
    requires m > 0 && a == (first / m) * batch && b <= (rest / m) * batch
    ensures a + b <= ((first + rest) / m) * batch
  {
    var p, q, r := first / m, rest / m, (first + rest) / m;
    QuotientsAdd(first, rest, m);
    MultiplyMonotone(batch, p + q, r);
    Distribute(batch, p, q);
  }

  lemma ValuesCombine(price: nat, a: nat, b: nat, x: nat, y: nat)
    requires price * a == x && price * b == y
    ensures price * (a + b) == x + y
  {
    Distribute(price, a, b);
  }

  /** A positive price tells amounts apart. */
  lemma PriceIsInjective(price: nat, a: nat, b: nat)
    requires price > 0 && price * a == price * b
    ensures a == b
  {
    if a < b {
      MultiplyMonotone(price, a + 1, b);
      Distribute(price, a, 1);
    } else if b < a {
      MultiplyMonotone(price, b + 1, a);
      Distribute(price, b, 1);
    }
  }

  lemma QuotientUnique(a: nat, n: nat, q: nat, r: nat)
    requires r < n && a == n * q + r
    ensures a / n == q && a % n == r
  {
    QuotientIsLargest(a, n, q);
    QuotientFits(a, n);
    if a / n > q {
      MultiplyMonotone(n, q + 1, a / n);
      Distribute(n, q, 1);
    }
  }

  /** Moving one on adds to the quotient exactly at the multiples. */
  lemma QuotientStep(m: nat, n: nat)
    requires n > 0
    ensures (m + 1) / n == m / n + (if (m + 1) % n == 0 then 1 else 0)
  {
    var q, r := m / n, m % n;
    if r + 1 < n {
      QuotientUnique(m + 1, n, q, r + 1);
    } else {
      Distribute(n, q, 1);
      QuotientUnique(m + 1, n, q + 1, 0);
    }
  }

  lemma Split(x: nat, n: nat)
    requires n > 0
    ensures x == n * (x / n) + x % n && x % n < n
  {
  }

  lemma SumSplits(n: nat, p: nat, r: nat, q: nat, s: nat)
    requires r < n && s < n
    ensures ((n * p + r) + (n * q + s)) / n == p + q + (if r + s < n then 0 else 1)
  {
    Distribute(n, p, q);
    if r + s < n {
      QuotientUnique((n * p + r) + (n * q + s), n, p + q, r + s);
    } else {
      Distribute(n, p + q, 1);
      QuotientUnique((n * p + r) + (n * q + s), n, p + q + 1, r + s - n);
    }
  }

  /** The quotient of a sum exceeds the sum of the quotients by at most one, and not at all at a multiple. */
  lemma QuotientsAddClosely(a: nat, k: nat, n: nat)
    requires n > 0
    ensures a / n + k / n <= (a + k) / n <= a / n + k / n + (if k % n == 0 then 0 else 1)
  {
    Split(a, n);
    Split(k, n);
    SumSplits(n, a / n, a % n, k / n, k % n);
  }

  lemma Regroup(n: nat, c: nat, q: nat, s: nat)
    ensures (n * c) * q + n * s == n * (c * q + s)
  {
    assert (n * c) * q == n * (c * q);
    Distribute(n, c * q, s);
  }

  lemma RemainderOfSum(n: nat, c: nat, q: nat, s: nat, t: nat)
    requires t < n
    ensures ((n * c) * q + (n * s + t)) % n == t
  {
    Regroup(n, c, q, s);
    QuotientUnique((n * c) * q + (n * s + t), n, c * q + s, t);
  }

  /** The remainder modulo a multiple of `n` has the same remainder modulo `n`. */
  lemma RemainderOfRemainder(x: nat, big: nat, n: nat)
    requires n > 0 && big > 0 && big % n == 0
    ensures x % big % n == x % n
  {
    Split(x, big);
    Split(big, n);
    Split(x % big, n);
    RemainderOfSum(n, big / n, x / big, x % big / n, x % big % n);
  }
}
