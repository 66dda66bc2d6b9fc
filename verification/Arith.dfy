/** The smaller of two integers. */
module Arith {
  function Min(a: int, b: int): int { if a < b then a else b }
}
