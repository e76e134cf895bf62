/**
 * Random draws. Every `Math.random()` call of the widget is replaced by an
 * explicit parameter `u` in [0, 1), and Kotlin's `Double.toInt()` /
 * `Double.toLong()` by truncation toward zero.
 */
module Draws {

  /** What `Math.random()` promises about the value it returns. */
  predicate IsDraw(u: real) {
    0.0 <= u < 1.0
  }

  /** Kotlin's conversion of a double to an integer: the fraction is dropped (rounds toward zero). */
  function Truncate(x: real): (k: int)
    ensures x >= 0.0 ==> 0 <= k && k as real <= x < k as real + 1.0
    ensures x < 0.0 ==> k <= 0 && k as real - 1.0 < x <= k as real
  {
    if x >= 0.0 then x.Floor else -((-x).Floor)
  }

  /** `(Math.random() * n).toInt()` is one of the n integers 0 .. n-1. */
  lemma TruncateScaledDraw(u: real, n: nat)
    requires IsDraw(u) && n > 0
    ensures 0 <= Truncate(u * n as real) < n
  {
    ScaleBelow(u, 1.0, n as real);
    assert 0.0 <= u * n as real < n as real;
  }

  lemma ScaleBelow(a: real, b: real, c: real)
    requires a < b && c > 0.0
    ensures a * c < b * c
  {
  }
}
