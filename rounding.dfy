/**
  Money arithmetic used by the thermostat. Amounts are exact reals; the
  two-decimal rounding that pandas/numpy apply (`round(x, 2)`) is written out
  as round-half-to-even on the hundredths.
*/
module Rounding {

  /** The integer nearest to `y`; a value exactly half-way between two
      integers goes to the even one (banker's rounding). */
  function RoundHalfEven(y: real): (r: int)
    ensures -0.5 <= r as real - y <= 0.5
    ensures r as real - y == 0.5 || y - r as real == 0.5 ==> r % 2 == 0
  {
    var f := y.Floor;
    var frac := y - f as real;
    if frac < 0.5 then f
    else if frac > 0.5 then f + 1
    else if f % 2 == 0 then f
    else f + 1
  }

  /** The two conditions of RoundHalfEven pin its result down: no other
      integer is as close to `y` and breaks ties the same way. */
  lemma RoundHalfEvenUnique(y: real, k: int)
    requires -0.5 <= k as real - y <= 0.5
    requires k as real - y == 0.5 || y - k as real == 0.5 ==> k % 2 == 0
    ensures k == RoundHalfEven(y)
  {
  }

  /** An integer rounds to itself. */
  lemma RoundHalfEvenOfInteger(k: int)
    ensures RoundHalfEven(k as real) == k
  {
  }

  /** `round(x, 2)`: `x` rounded half-to-even to two decimal places. */
  function Round2(x: real): (r: real)
    ensures -0.005 <= r - x <= 0.005
    ensures (r * 100.0).Floor as real == r * 100.0
    ensures (r - x) * 100.0 == 0.5 || (x - r) * 100.0 == 0.5 ==> (r * 100.0).Floor % 2 == 0
  {
    RoundHalfEven(x * 100.0) as real / 100.0
  }

  /** Rounding an amount that already has two decimal places changes
      nothing, so rounding twice is rounding once. */
  lemma Round2Idempotent(x: real)
    ensures Round2(Round2(x)) == Round2(x)
  {
  }

  /** Round2 keeps the order of its arguments (it never swaps two amounts). */
  lemma Round2Monotone(x: real, y: real)
    requires x <= y
    ensures Round2(x) <= Round2(y)
  {
    var a, b := RoundHalfEven(x * 100.0), RoundHalfEven(y * 100.0);
    if a > b {
      assert a == b + 1;
      assert x * 100.0 == y * 100.0;
    }
  }
}
