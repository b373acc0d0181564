// Numeric conventions of the JavaScript sources over exact reals.

module Numbers {

  /** JavaScript's `Math.round`: the nearest integer, halves rounded up. */
  function JsRound(x: real): (r: int)
    ensures r as real - 0.5 <= x < r as real + 0.5
  {
    (x + 0.5).Floor
  }

  /** `Math.round` of a value in [lo, hi] lands in [round(lo), round(hi)]. */
  lemma JsRoundMonotone(x: real, y: real)
    requires x <= y
    ensures JsRound(x) <= JsRound(y)
  {
  }

  lemma JsRoundInt(n: int)
    ensures JsRound(n as real) == n
  {
  }
}
