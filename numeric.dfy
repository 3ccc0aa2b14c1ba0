/**
 * The JavaScript number operations the SEO routes use, on exact reals and
 * unbounded integers (binary floating point is not modelled).
 */
module Numeric {

  function Min(a: int, b: int): int { if a <= b then a else b }

  function Max(a: int, b: int): int { if a <= b then b else a }

  function MinReal(a: real, b: real): real { if a <= b then a else b }

  function MaxReal(a: real, b: real): real { if a <= b then b else a }

  /** `Math.round`: the nearest integer, a half rounding upward. */
  function Round(x: real): (r: int)
    ensures r as real - 0.5 <= x < r as real + 0.5
  {
    (x + 0.5).Floor
  }

  /** `Math.round` is monotone. */
  lemma RoundMonotone(x: real, y: real)
    requires x <= y
    ensures Round(x) <= Round(y)
  {
  }

  /**
   * `parseFloat(x.toFixed(2))` for x >= 0: the nearest multiple of 0.01, a
   * half rounding upward (the decimal string is read back as a number).
   */
  function Round2(x: real): (r: real)
    ensures r - 0.005 <= x < r + 0.005
  {
    Round(x * 100.0) as real / 100.0
  }

  /** Rounding to hundredths is monotone and keeps a value within [0, 100] there. */
  lemma Round2Monotone(x: real, y: real)
    requires x <= y
    ensures Round2(x) <= Round2(y)
  {
    RoundMonotone(x * 100.0, y * 100.0);
  }

  lemma Round2Bounds(x: real)
    requires 0.0 <= x <= 100.0
    ensures 0.0 <= Round2(x) <= 100.0
  {
    RoundMonotone(0.0, x * 100.0);
    RoundMonotone(x * 100.0, 10000.0);
    assert Round(0.0) == 0;
    assert Round(10000.0) == 10000;
  }
}
