/** The JavaScript number operations the page applies to counts and indices, on exact integers. */
module Arithmetic {

  /** `Math.min(a, b)`. */
  function Min(a: int, b: int): int { if a <= b then a else b }

  /** `Math.ceil(a / b)`; exact, as every quotient here is of two integers. */
  function CeilDiv(a: int, b: int): (q: int)
    requires b != 0
    ensures b > 0 ==> b * (q - 1) < a <= b * q
    ensures b < 0 ==> b * q <= a < b * (q - 1)
  {
    if b > 0 then -((-a) / b) else -(a / (-b))
  }

  /** The length `Array.from({length: len})` gets: a negative length gives an empty array. */
  function ArrayLength(len: int): (r: nat)
    ensures len >= 0 ==> r == len
    ensures len <= 0 ==> r == 0
  {
    if len < 0 then 0 else len
  }
}
