/** `round(x, 6)` over the reals: to the nearest millionth, ties to even. */
module Rounding {

  function Nearest(x: real): int {
    var f := x.Floor;
    var d := x - f as real;
    if d < 0.5 || (d == 0.5 && f % 2 == 0) then f else f + 1
  }

  function Round6(x: real): real { Nearest(x * 1000000.0) as real / 1000000.0 }

  lemma NearestMonotone(x: real, y: real)
    requires x <= y
    ensures Nearest(x) <= Nearest(y)
  {
  }

  /** Rounding moves a number by at most half a millionth. */
  lemma RoundError(x: real)
    ensures x - 0.0000005 <= Round6(x) <= x + 0.0000005
  {
  }

  lemma RoundMonotone(x: real, y: real)
    requires x <= y
    ensures Round6(x) <= Round6(y)
  {
    NearestMonotone(x * 1000000.0, y * 1000000.0);
  }

  lemma RoundZero()
    ensures Round6(0.0) == 0.0
  {
  }

  lemma RoundNonNegative(x: real)
    requires x >= 0.0
    ensures Round6(x) >= 0.0
  {
  }
}
