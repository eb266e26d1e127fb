/** Integer minimum and maximum, as Python's `min`/`max` and JavaScript's `Math.min`/`Math.max` on two integers. */
module Arith {
  function Min(a: int, b: int): int { if a <= b then a else b }
  function Max(a: int, b: int): int { if a >= b then a else b }
}
