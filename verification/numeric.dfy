/** Python's `min` and `max` on two numbers. */
module Numeric {

  function Min(a: int, b: int): int { if a <= b then a else b }
  function Max(a: int, b: int): int { if a >= b then a else b }

  function RMin(a: real, b: real): real { if a <= b then a else b }
  function RMax(a: real, b: real): real { if a >= b then a else b }
}
