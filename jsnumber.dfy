/** JavaScript's `%` on integers, which truncates toward zero (unlike Dafny's Euclidean `%`),
    and the facts about Euclidean division the rest of the model relies on. */
module JsNumber {

  /** `a % n` as JavaScript computes it for a positive divisor: the sign follows the dividend. */
  function JsRem(a: int, n: int): (r: int)
    requires n > 0
    ensures a >= 0 ==> 0 <= r < n
    ensures a < 0 ==> -n < r <= 0
    ensures (a - r) % n == 0
  {
    if a >= 0 then
      DivModUnique(a - a % n, a / n, 0, n);
      a % n
    else
      var m := -a;
      assert a + m % n == (-(m / n)) * n;
      DivModUnique(a + m % n, -(m / n), 0, n);
      -(m % n)
  }

  /** Adding the divisor to a negative JavaScript remainder gives the true (Euclidean) modulus. */
  lemma TrueModulo(a: int, n: int)
    requires n > 0
    ensures (if JsRem(a, n) < 0 then JsRem(a, n) + n else JsRem(a, n)) == a % n
  {
    var r := JsRem(a, n);
    var j := (a - r) / n;
    assert a - r == j * n;
    if r < 0 {
      assert a == (j - 1) * n + (r + n);
      DivModUnique(a, j - 1, r + n, n);
    } else {
      DivModUnique(a, j, r, n);
    }
  }

  /** A product with a positive factor is at least that factor in size when the other is non-zero. */
  lemma MulSign(d: int, n: int)
    requires n > 0
    ensures d >= 1 ==> d * n >= n
    ensures d <= -1 ==> d * n <= -n
  {
  }

  /** Quotient and remainder are the only ones with `a == q * n + r` and `0 <= r < n`. */
  lemma DivModUnique(a: int, q: int, r: int, n: int)
    requires n > 0 && 0 <= r < n && a == q * n + r
    ensures a / n == q && a % n == r
  {
    var q0, r0 := a / n, a % n;
    MulSign(q - q0, n);
    assert (q - q0) * n == q * n - q0 * n;
  }

  /** Adding a multiple of the divisor does not change the modulus. */
  lemma ModShift(a: int, k: int, n: int)
    requires n > 0
    ensures (a + k * n) % n == a % n
  {
    assert (a / n + k) * n == (a / n) * n + k * n;
    DivModUnique(a + k * n, a / n + k, a % n, n);
  }
}
