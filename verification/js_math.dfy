/** The few JavaScript `Math` operations the matching engine uses, over
    Dafny's unbounded integers and exact reals. */
module JsMath {

  /** `Math.round`: the nearest integer, a half rounded up (towards +infinity). */
  function Round(x: real): (r: int)
    ensures r as real - 0.5 <= x < r as real + 0.5
  {
    (x + 0.5).Floor
  }

  /** Rounding a value that is already whole leaves it alone. */
  lemma RoundOfInteger(n: int)
    ensures Round(n as real) == n
  {
  }

  function MaxReal(a: real, b: real): real
  {
    if a >= b then a else b
  }

  function MinReal(a: real, b: real): real
  {
    if a <= b then a else b
  }

  function MinInt(a: int, b: int): int
  {
    if a <= b then a else b
  }

  function Abs(x: int): nat
  {
    if x < 0 then -x else x
  }
}
