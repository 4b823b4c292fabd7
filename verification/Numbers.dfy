/** Math.max and Math.min. */
module Numbers {
  function Max(a: int, b: int): int { if a >= b then a else b }

  function MaxReal(x: real, y: real): real { if x > y then x else y }

  function MinReal(x: real, y: real): real { if x < y then x else y }
}
