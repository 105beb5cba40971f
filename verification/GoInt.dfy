/** Go's integer arithmetic, where it differs from Dafny's. */
module GoInt {

  /** Go's `a / b` for a positive divisor: the quotient is truncated toward zero,
      while Dafny's `/` rounds toward minus infinity. */
  function Quo(a: int, b: int): int
    requires b > 0
  {
    if a >= 0 then a / b else -(-a / b)
  }

  /** The threshold `9*n/10` that both the data limiter and the message store use. */
  function NineTenths(n: int): (t: int)
    ensures n >= 0 ==> 0 <= t <= n && 10 * t <= 9 * n < 10 * t + 10
    ensures n < 0 ==> 10 * t - 10 < 9 * n <= 10 * t <= 0
  {
    Quo(9 * n, 10)
  }
}
