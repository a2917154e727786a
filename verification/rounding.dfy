/** Rounding a percentage or price to two decimals, as the reported market
    data does before the strategy sees it. The result is kept as a whole
    number of hundredths, so 12.34 is 1234. */
module Rounding {

  /** The integer nearest to y; a value exactly halfway between two integers
      goes to the even one (round-half-to-even). */
  function RoundHalfEven(y: real): (n: int)
    ensures y - 0.5 <= n as real <= y + 0.5
    ensures n as real - y == 0.5 || y - n as real == 0.5 ==> n % 2 == 0
  {
    var f := y.Floor;
    var frac := y - f as real;
    if frac < 0.5 then f
    else if frac > 0.5 then f + 1
    else if f % 2 == 0 then f
    else f + 1
  }

  /** n hundredths is within half a hundredth of x. */
  predicate NearestHundredth(x: real, n: int)
  {
    x * 100.0 - 0.5 <= n as real <= x * 100.0 + 0.5
  }

  /** x rounded to two decimals, in hundredths. */
  function Hundredths(x: real): (n: int)
    ensures NearestHundredth(x, n)
  {
    RoundHalfEven(x * 100.0)
  }

  /** Rounding never reverses the order of two values. */
  lemma HundredthsMonotone(x: real, y: real)
    requires x <= y
    ensures Hundredths(x) <= Hundredths(y)
  {
  }

  /** What a rounded comparison against a threshold of t hundredths reveals
      about the unrounded value: a rounded value below t means the value is
      below t / 100, and a value more than half a hundredth below t / 100
      rounds below t. */
  lemma HundredthsBelow(x: real, t: int)
    ensures Hundredths(x) < t ==> x * 100.0 < t as real
    ensures x * 100.0 < t as real - 0.5 ==> Hundredths(x) < t
  {
  }
}
