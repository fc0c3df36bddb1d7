/** Python's built-in `round(x, 4)`, taken on exact reals instead of binary floats. */
module Rounding {

  /** The integer nearest to `y`; a value exactly half-way between two integers goes
      to the even one, as Python 3's `round` does. */
  function RoundHalfEven(y: real): (n: int)
    ensures n as real - 0.5 <= y <= n as real + 0.5
    ensures (y == n as real - 0.5 || y == n as real + 0.5) ==> n % 2 == 0
  {
    var f := y.Floor;
    var frac := y - f as real;
    if frac < 0.5 then f
    else if frac > 0.5 then f + 1
    else if f % 2 == 0 then f
    else f + 1
  }

  /** The two conditions above single out one integer: they are a definition of
      rounding, not only bounds on it. */
  lemma RoundHalfEvenUnique(y: real, k: int)
    requires k as real - 0.5 <= y <= k as real + 0.5
    requires (y == k as real - 0.5 || y == k as real + 0.5) ==> k % 2 == 0
    ensures k == RoundHalfEven(y)
  {
  }

  /** `round(x, 4)`: the multiple of 1/10000 nearest to `x`. */
  function Round4(x: real): (r: real)
    ensures -0.00005 <= r - x <= 0.00005
    ensures (r * 10000.0).Floor as real == r * 10000.0
  {
    RoundHalfEven(x * 10000.0) as real / 10000.0
  }

  /** A value that already has at most four decimal digits is left as it is. */
  lemma Round4Exact(n: int)
    ensures Round4(n as real / 10000.0) == n as real / 10000.0
  {
    RoundHalfEvenUnique(n as real, n);
  }
}
