/** Integer arithmetic the components perform on JavaScript numbers. */
module Arith {

  /**
   * `Math.ceil(a / n)` for a positive divisor: the least integer whose
   * multiple of `n` reaches `a`. Dafny's division is Euclidean, so the
   * ceiling is the negated floor of `-a / n`.
   */
  function CeilDiv(a: int, n: int): (r: int)
    requires n > 0
    ensures (r - 1) * n < a <= r * n
  {
    var q := (-a) / n;
    var m := (-a) % n;
    assert -a == q * n + m && 0 <= m < n;
    assert -q * n == a + m;
    -q
  }

  /** The ceiling is unique: any integer bracketing `a` the same way is it. */
  lemma CeilDivUnique(a: int, n: int, k: int)
    requires n > 0 && (k - 1) * n < a <= k * n
    ensures CeilDiv(a, n) == k
  {
  }
}
