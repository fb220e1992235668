/** Rounding to the nearest integer, ties to the even one. */
module Rounding {
  function HalfEven(x: real): (n: int)
    ensures -0.5 <= n as real - x <= 0.5
    ensures x - x.Floor as real == 0.5 ==> n % 2 == 0
  {
    var down := x.Floor;
    var rest := x - down as real;
    if rest < 0.5 then down
    else if rest > 0.5 then down + 1
    else if down % 2 == 0 then down
    else down + 1
  }

  lemma HalfEvenIsMonotone(x: real, y: real)
    requires x <= y
    ensures HalfEven(x) <= HalfEven(y)
  {
    assert x.Floor <= y.Floor;
  }

  lemma WholeNumbersStay(n: int)
    ensures HalfEven(n as real) == n
  {
  }
}
