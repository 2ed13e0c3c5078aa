/** Division with remainder, as far as sequence numbers and bucket numbers need it. */
module Arithmetic {

  lemma MulAtLeast(a: int, n: int)
    requires a >= 1 && n >= 0
    ensures a * n >= n
  {
    assert a * n == n + (a - 1) * n;
  }

  /** Quotient and remainder are unique. */
  lemma QuotientIs(x: int, n: int, q: int, r: int)
    requires n > 0 && 0 <= r < n && x == q * n + r
    ensures x / n == q && x % n == r
  {
    var q', r' := x / n, x % n;
    assert (q - q') * n == r' - r;
    if q > q' {
      MulAtLeast(q - q', n);
    } else if q < q' {
      MulAtLeast(q' - q, n);
    }
  }

  /** Adding a multiple of `n` changes the quotient only. */
  lemma ModPlus(x: int, k: int, n: int)
    requires n > 0
    ensures (x + k * n) % n == x % n && (x + k * n) / n == x / n + k
  {
    var q, r := x / n, x % n;
    assert x + k * n == (q + k) * n + r;
    QuotientIs(x + k * n, n, q + k, r);
  }

  /** Numbers with the same remainder differ by a multiple of `n`. */
  lemma SameRemainder(x: int, y: int, n: int)
    requires n > 0 && x % n == y % n
    ensures y == x + (y / n - x / n) * n
  {
  }

  /** Adding a multiple of `n` keeps the remainder. */
  lemma PlusMultiple(x: int, y: int, n: int)
    requires n > 0 && y % n == 0
    ensures (x + y) % n == x % n
  {
    ModPlus(x, y / n, n);
    assert y == y / n * n;
  }
}
