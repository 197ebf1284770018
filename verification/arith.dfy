/** Small facts of real arithmetic, stated once so that the proofs using
    them stay linear. */
module Arith {

  lemma ProductAsReal(a: int, b: int)
    ensures (a * b) as real == a as real * b as real
  {
  }

  lemma MultiplyMonotone(r: real, x: real, y: real)
    requires r >= 0.0 && x <= y
    ensures r * x <= r * y
  {
  }

  lemma MultiplyStrict(r: real, x: real, y: real)
    requires r > 0.0 && x < y
    ensures r * x < r * y
  {
  }

  /** A quotient by a positive number lies between the bounds its dividend
      lies between, divided by it. */
  lemma DivideBounds(sum: real, n: real, lo: real, hi: real)
    requires n > 0.0
    requires n * lo <= sum < n * hi
    ensures lo <= sum / n < hi
  {
  }

  lemma DivideBoundsClosed(sum: real, n: real, lo: real, hi: real)
    requires n > 0.0
    requires n * lo <= sum <= n * hi
    ensures lo <= sum / n <= hi
  {
  }

  /** One more term inside the bounds keeps a sum of `n` terms inside `n`
      times the bounds. */
  lemma AddWithinBounds(sum: real, term: real, total: real, n: real, m: real, lo: real, hi: real)
    requires n * lo <= sum <= n * hi && lo <= term <= hi
    requires total == sum + term && m == n + 1.0
    ensures m * lo <= total <= m * hi
  {
  }

  /** The integer form with a strict upper bound: a sum of `n` terms in
      `[lo, hi)` and one more such term make a sum of `n + 1` terms in
      `[(n + 1) lo, (n + 1) hi)`. */
  lemma AddWithinIntBounds(sum: int, term: int, n: nat, lo: int, hi: int)
    requires n * lo <= sum && lo <= term < hi
    requires if n == 0 then sum == 0 else sum < n * hi
    ensures (n + 1) * lo <= sum + term < (n + 1) * hi
  {
    assert (n + 1) * lo == n * lo + lo;
    assert (n + 1) * hi == n * hi + hi;
  }
}
