/** The swing-point detector: does the evaluated bar hold an extreme over a symmetric
    window of `lookback` bars on each side?

    History is a sequence ordered oldest first and the evaluated bar sits at position `c`.
    The source addresses bars by offset from the evaluated one, a positive offset being
    older, so its offset `index + i` is position `c - i` here and `index - i` is `c + i`.

    The names are the source's, and they are inverted with respect to the usual
    convention: the "swing high" test compares lows (the bar's low is a window minimum)
    and the "swing low" test compares highs (the bar's high is a window maximum). */
module Swing {
  import opened Bars

  /** There are `lookback` bars on both sides of position `c`. A lookback below one
      needs no neighbours. */
  predicate WindowFits(n: int, c: int, lookback: int) {
    0 <= c < n && c - lookback >= 0 && c + lookback < n
  }

  /** Neither bar at distance `i` from position `c` has a lower low than the bar at `c`. */
  predicate LowsNotBelow(s: seq<Bar>, c: int, i: int)
    requires 0 <= i <= c && c + i < |s|
  {
    s[c - i].low >= s[c].low && s[c + i].low >= s[c].low
  }

  /** Neither bar at distance `i` from position `c` has a higher high than the bar at `c`. */
  predicate HighsNotAbove(s: seq<Bar>, c: int, i: int)
    requires 0 <= i <= c && c + i < |s|
  {
    s[c - i].high <= s[c].high && s[c + i].high <= s[c].high
  }

  /** What IsSwingHigh decides: no bar within `lookback` on either side has a lower low,
      that is, the bar's low is the minimum of the lows over positions c - lookback to
      c + lookback. */
  predicate SwingHighAt(s: seq<Bar>, c: int, lookback: int)
    requires WindowFits(|s|, c, lookback)
    ensures SwingHighAt(s, c, lookback) <==>
      forall k :: c - lookback <= k <= c + lookback ==> s[k].low >= s[c].low
  {
    LowsByOffsetOrPosition(s, c, lookback);
    forall i :: 1 <= i <= lookback ==> LowsNotBelow(s, c, i)
  }

  /** What IsSwingLow decides: no bar within `lookback` on either side has a higher high,
      that is, the bar's high is the maximum of the highs over positions c - lookback to
      c + lookback. */
  predicate SwingLowAt(s: seq<Bar>, c: int, lookback: int)
    requires WindowFits(|s|, c, lookback)
    ensures SwingLowAt(s, c, lookback) <==>
      forall k :: c - lookback <= k <= c + lookback ==> s[k].high <= s[c].high
  {
    HighsByOffsetOrPosition(s, c, lookback);
    forall i :: 1 <= i <= lookback ==> HighsNotAbove(s, c, i)
  }

  /** Comparing the bars at every offset 1..lookback on both sides is comparing every
      position of the window. */
  lemma LowsByOffsetOrPosition(s: seq<Bar>, c: int, lookback: int)
    requires WindowFits(|s|, c, lookback)
    ensures (forall i :: 1 <= i <= lookback ==> LowsNotBelow(s, c, i)) <==>
      (forall k :: c - lookback <= k <= c + lookback ==> s[k].low >= s[c].low)
  {
    if forall i :: 1 <= i <= lookback ==> LowsNotBelow(s, c, i) {
      forall k | c - lookback <= k <= c + lookback
        ensures s[k].low >= s[c].low
      {
        if k < c {
          assert LowsNotBelow(s, c, c - k);
        } else if k > c {
          assert LowsNotBelow(s, c, k - c);
        }
      }
    }
    if forall k :: c - lookback <= k <= c + lookback ==> s[k].low >= s[c].low {
      forall i | 1 <= i <= lookback
        ensures LowsNotBelow(s, c, i)
      {
        assert s[c - i].low >= s[c].low && s[c + i].low >= s[c].low;
      }
    }
  }

  /** The same for highs. */
  lemma HighsByOffsetOrPosition(s: seq<Bar>, c: int, lookback: int)
    requires WindowFits(|s|, c, lookback)
    ensures (forall i :: 1 <= i <= lookback ==> HighsNotAbove(s, c, i)) <==>
      (forall k :: c - lookback <= k <= c + lookback ==> s[k].high <= s[c].high)
  {
    if forall i :: 1 <= i <= lookback ==> HighsNotAbove(s, c, i) {
      forall k | c - lookback <= k <= c + lookback
        ensures s[k].high <= s[c].high
      {
        if k < c {
          assert HighsNotAbove(s, c, c - k);
        } else if k > c {
          assert HighsNotAbove(s, c, k - c);
        }
      }
    }
    if forall k :: c - lookback <= k <= c + lookback ==> s[k].high <= s[c].high {
      forall i | 1 <= i <= lookback
        ensures HighsNotAbove(s, c, i)
      {
        assert s[c - i].high <= s[c].high && s[c + i].high <= s[c].high;
      }
    }
  }

  /** The source's scan for a window minimum of lows, stopping at the first lower low.
      `steps` counts the offsets examined. */
  method IsSwingHigh(s: seq<Bar>, c: int, lookback: int) returns (found: bool, ghost steps: nat)
    requires WindowFits(|s|, c, lookback)
    ensures found <==> SwingHighAt(s, c, lookback)
    ensures steps <= if lookback > 0 then lookback else 0
    ensures found ==> steps == (if lookback > 0 then lookback else 0)
  {
    var currentLow := s[c].low;
    steps := 0;
    var i := 1;
    while i <= lookback
      invariant 1 <= i && (i <= lookback + 1 || i == 1)
      invariant steps == i - 1
      invariant forall j :: 1 <= j < i ==> LowsNotBelow(s, c, j)
    {
      steps := steps + 1;
      if s[c + i].low < currentLow || s[c - i].low < currentLow {
        assert !LowsNotBelow(s, c, i);
        return false, steps;
      }
      i := i + 1;
    }
    found := true;
  }

  /** The source's scan for a window maximum of highs, stopping at the first higher high.
      `steps` counts the offsets examined. */
  method IsSwingLow(s: seq<Bar>, c: int, lookback: int) returns (found: bool, ghost steps: nat)
    requires WindowFits(|s|, c, lookback)
    ensures found <==> SwingLowAt(s, c, lookback)
    ensures steps <= if lookback > 0 then lookback else 0
    ensures found ==> steps == (if lookback > 0 then lookback else 0)
  {
    var currentHigh := s[c].high;
    steps := 0;
    var i := 1;
    while i <= lookback
      invariant 1 <= i && (i <= lookback + 1 || i == 1)
      invariant steps == i - 1
      invariant forall j :: 1 <= j < i ==> HighsNotAbove(s, c, j)
    {
      steps := steps + 1;
      if s[c + i].high > currentHigh || s[c - i].high > currentHigh {
        assert !HighsNotAbove(s, c, i);
        return false, steps;
      }
      i := i + 1;
    }
    found := true;
  }
}
