/** Price bars, the classification a bar receives, and the per-bar measures
    the trigger-bar detector derives from one bar's open, high, low and close. */
module Bars {

  /** One closed bar (candle). Prices are exact reals rather than doubles. */
  datatype Bar = Bar(open: real, high: real, low: real, close: real)

  /** The classification of one evaluated bar; CommonBar is the no-match value. */
  datatype BarType =
    | BearishElephant
    | BullishElephant
    | BearishEngulfing
    | BullishEngulfing
    | BearishTail
    | BullishTail
    | SwingHigh
    | SwingLow
    | CommonBar

  /** What market data promises of a bar: open and close lie between low and high. */
  predicate WellFormed(b: Bar) {
    b.low <= b.open <= b.high && b.low <= b.close <= b.high
  }

  /** A bar closing above its open; its body is then the rise from open to close. */
  predicate IsBullish(b: Bar)
    ensures IsBullish(b) ==> BodySize(b) == b.close - b.open && BodySize(b) > 0.0
    ensures !IsBullish(b) ==> BodySize(b) == b.open - b.close
  {
    b.close > b.open
  }

  function Range(b: Bar): (r: real)
    ensures WellFormed(b) ==> r >= 0.0
  {
    b.high - b.low
  }

  function BodySize(b: Bar): (r: real)
    ensures r >= 0.0
    ensures r == b.close - b.open || r == b.open - b.close
    ensures WellFormed(b) ==> r <= Range(b)
  {
    if b.close >= b.open then b.close - b.open else b.open - b.close
  }

  /** The wick below the body: measured from the open on a bullish bar, from the close otherwise. */
  function LowerTail(b: Bar): (r: real)
    ensures WellFormed(b) ==> 0.0 <= r <= Range(b)
  {
    if IsBullish(b) then b.open - b.low else b.close - b.low
  }

  /** The wick above the body: measured from the close on a bullish bar, from the open otherwise. */
  function UpperTail(b: Bar): (r: real)
    ensures WellFormed(b) ==> 0.0 <= r <= Range(b)
  {
    if IsBullish(b) then b.high - b.close else b.high - b.open
  }

  /** The tail that the tail ratio is taken of: the lower one when it is strictly longer,
      the upper one otherwise. */
  function LargerTail(b: Bar): (r: real)
    ensures r >= LowerTail(b) && r >= UpperTail(b)
    ensures r == LowerTail(b) || r == UpperTail(b)
  {
    if LowerTail(b) > UpperTail(b) then LowerTail(b) else UpperTail(b)
  }

  /** The test `(part / whole) * 100 >= pct`, computed on exact reals. The one double
      outcome reproduced is the zero `whole` (always +0, being a difference of equal
      prices): the quotient is +Infinity when `part` is positive, which passes every
      finite threshold, -Infinity when `part` is negative, and NaN when `part` is zero;
      neither of the last two passes a `>=`. Rounding of the quotient and the product,
      which can flip the test when the ratio sits exactly on the threshold, is not
      modelled. */
  function PercentAtLeast(part: real, whole: real, pct: real): (r: bool)
    ensures whole > 0.0 ==> (r <==> part * 100.0 >= pct * whole)
    ensures whole < 0.0 ==> (r <==> part * 100.0 <= pct * whole)
    ensures whole == 0.0 ==> (r <==> part > 0.0)
  {
    if whole == 0.0 then part > 0.0 else (part / whole) * 100.0 >= pct
  }
}
