/** Small shared helpers: an option type and the JavaScript `Math` functions
    the screening code uses, over unbounded reals and integers. */
module Base {

  datatype Option<+T> = None | Some(value: T)

  /** Math.abs */
  function Abs(x: real): real {
    if x < 0.0 then -x else x
  }

  /** Math.max of two numbers */
  function Max(a: real, b: real): real {
    if a >= b then a else b
  }

  /** Math.min of two numbers */
  function Min(a: real, b: real): real {
    if a <= b then a else b
  }

  function MaxInt(a: int, b: int): int {
    if a >= b then a else b
  }

  function MinInt(a: int, b: int): int {
    if a <= b then a else b
  }

  /** Math.floor */
  function Floor(x: real): int {
    x.Floor
  }

  /** Math.ceil */
  function Ceil(x: real): (r: int)
    ensures x <= r as real < x + 1.0
  {
    -((-x).Floor)
  }
}
