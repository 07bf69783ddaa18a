/** Rounding as JavaScript's `Math.round` does it, over exact reals. */
module Numeric {

  /** `Math.round(x)`: the nearest integer, halves rounded up (towards +infinity). */
  function Round(x: real): (r: int)
    ensures r as real - 0.5 <= x < r as real + 0.5
  {
    (x + 0.5).Floor
  }

  /** Rounding never reverses the order of two values. */
  lemma RoundMonotone(x: real, y: real)
    requires x <= y
    ensures Round(x) <= Round(y)
  {
  }

  /** Two shares of `c` rounded independently add up to `c`, or to `c + 1`
      when both are exact halves (which `Math.round` sends upwards). */
  lemma RoundShares(x: real, y: real, c: int)
    requires x + y == c as real
    ensures c <= Round(x) + Round(y) <= c + 1
    ensures Round(x) + Round(y) == c + 1 <==> x + 0.5 == Round(x) as real
  {
    var a, b := Round(x), Round(y);
    assert a as real <= x + 0.5 < a as real + 1.0;
    assert b as real <= y + 0.5 < b as real + 1.0;
    if a + b == c + 1 {
      assert x + 0.5 == a as real;
    }
  }
}
