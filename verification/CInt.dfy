/**
 C++ integer arithmetic: division and remainder truncate toward zero, whereas Dafny's `/` and `%`
 are Euclidean, and fixed-width values have bounds that Dafny's `int` does not.
 */
module CInt {

  const INT32_MAX := 0x7fff_ffff
  const INT32_MIN := -0x8000_0000

  /** Quotient truncated toward zero. */
  function Div(a: int, b: int): int
    requires b > 0
  {
    if a >= 0 then a / b else -((-a) / b)
  }

  /** Remainder with the sign of the dividend. */
  function Mod(a: int, b: int): int
    requires b > 0
  {
    a - b * Div(a, b)
  }

  predicate FitsInt32(x: int) {
    INT32_MIN <= x <= INT32_MAX
  }
}
