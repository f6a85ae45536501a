/** Python 3's built-in round() applied to a float without `ndigits`:
    the nearest integer, and of two equally near integers the even one. */
module Rounding {

  function Round(x: real): (r: int)
    ensures r as real - 0.5 <= x <= r as real + 0.5
    ensures (x == r as real - 0.5 || x == r as real + 0.5) ==> r % 2 == 0
  {
    var f := x.Floor;
    var fraction := x - f as real;
    if fraction < 0.5 then f
    else if fraction > 0.5 then f + 1
    else if f % 2 == 0 then f
    else f + 1
  }

  /** The two clauses of Round's contract determine it: any integer that is
      nearest to `x`, and even on a tie, is Round(x). */
  lemma RoundUnique(x: real, n: int)
    requires n as real - 0.5 <= x <= n as real + 0.5
    requires (x == n as real - 0.5 || x == n as real + 0.5) ==> n % 2 == 0
    ensures n == Round(x)
  {
  }

  /** A float that already holds an integer rounds to that integer. */
  lemma RoundOfInteger(n: int)
    ensures Round(n as real) == n
  {
  }

  /** Rounding preserves order. */
  lemma RoundMonotonic(x: real, y: real)
    requires x <= y
    ensures Round(x) <= Round(y)
  {
  }
}
