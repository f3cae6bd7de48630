/** The bar classifier: one BarType for the evaluated bar, from that bar, the bar
    before it, the ATR value at the evaluated bar and the detection settings.

    The source evaluates the pattern families as a cascade of guarded overwrites of one
    local, the last match winning (DetectCurrentBarType below). Classify states the same
    outcome the other way round, as a ranking checked from the top, the first match
    winning: swing high, swing low, engulfing, tail, elephant, then CommonBar. */
module Classifier {
  import opened Bars
  import opened Config
  import opened Swing

  /** The elephant family fires: a range of at least `elephantMinSize` ATRs whose body
      takes at least `elephantBodySizePercent` percent of it. On a well-formed bar the
      body test only passes on a positive range (ElephantThresholds gives the exact
      comparison). */
  predicate ElephantMatch(cfg: DetectionConfig, b: Bar, atr: real)
    ensures ElephantMatch(cfg, b, atr) ==> cfg.detectElephantBars && Range(b) >= cfg.elephantMinSize * atr
    ensures ElephantMatch(cfg, b, atr) && WellFormed(b) ==> Range(b) > 0.0
  {
    cfg.detectElephantBars
    && Range(b) >= cfg.elephantMinSize * atr
    && PercentAtLeast(BodySize(b), Range(b), cfg.elephantBodySizePercent)
  }

  /** The tail family fires: a range of at least `tailBarMinSize` ATRs whose larger tail
      takes at least `tailMinPercent` percent of it. On a well-formed bar the ratio test
      only passes on a positive range. */
  predicate TailMatch(cfg: DetectionConfig, b: Bar, atr: real)
    ensures TailMatch(cfg, b, atr) ==> cfg.detectTailBars && Range(b) >= cfg.tailBarMinSize * atr
    ensures TailMatch(cfg, b, atr) && WellFormed(b) ==> Range(b) > 0.0
  {
    cfg.detectTailBars
    && Range(b) >= cfg.tailBarMinSize * atr
    && PercentAtLeast(LargerTail(b), Range(b), cfg.tailMinPercent)
  }

  /** The engulfing family is switched on and the bar is large enough to be considered.
      With a positive threshold and ATR, a bar without range is never large enough. */
  predicate EngulfingSized(cfg: DetectionConfig, b: Bar, atr: real)
    ensures EngulfingSized(cfg, b, atr) ==> cfg.detectEngulfingBars
    ensures EngulfingSized(cfg, b, atr) && cfg.engulfingMinSize > 0.0 && atr > 0.0 ==> Range(b) > 0.0
  {
    cfg.detectEngulfingBars && Range(b) >= cfg.engulfingMinSize * atr
  }

  /** A bullish bar after a bearish one, opening below and closing above the previous
      bar's body (or, with `wick`, its whole range). It never holds together with the
      bearish test, and against a well-formed previous bar the wick form implies the body
      form, so the current body always spans the previous one. */
  predicate BullishEngulfs(wick: bool, cur: Bar, prev: Bar)
    ensures BullishEngulfs(wick, cur, prev) ==> !BearishEngulfs(wick, cur, prev)
    ensures BullishEngulfs(wick, cur, prev) && WellFormed(prev) ==>
      cur.open < prev.close < prev.open < cur.close
  {
    cur.close > cur.open && prev.close < prev.open
    && (if wick then cur.open < prev.low && cur.close > prev.high
        else cur.open < prev.close && cur.close > prev.open)
  }

  /** The mirror image: a bearish bar after a bullish one, opening above and closing below
      the previous bar's body (or, with `wick`, its whole range). Against a well-formed
      previous bar the current body always spans the previous one. */
  predicate BearishEngulfs(wick: bool, cur: Bar, prev: Bar)
    ensures BearishEngulfs(wick, cur, prev) && WellFormed(prev) ==>
      cur.close < prev.open < prev.close < cur.open
  {
    cur.close < cur.open && prev.close > prev.open
    && (if wick then cur.open > prev.high && cur.close < prev.low
        else cur.open > prev.close && cur.close < prev.open)
  }

  /** The engulfing family fires in the mode `engulfWick` selects: the bar and the previous
      bar point opposite ways, neither the bar nor (for a match) its direction is flat, and
      against a well-formed previous bar a wick-mode match is also a body-mode match. */
  predicate EngulfingMatch(cfg: DetectionConfig, cur: Bar, prev: Bar, atr: real)
    ensures EngulfingMatch(cfg, cur, prev, atr) ==>
      cfg.detectEngulfingBars && cur.close != cur.open && (IsBullish(cur) <==> prev.close < prev.open)
    ensures EngulfingMatch(cfg, cur, prev, atr) && cfg.engulfWick && WellFormed(prev) ==>
      BullishEngulfs(false, cur, prev) || BearishEngulfs(false, cur, prev)
  {
    EngulfingSized(cfg, cur, atr)
    && (BullishEngulfs(cfg.engulfWick, cur, prev) || BearishEngulfs(cfg.engulfWick, cur, prev))
  }

  /** What the classifier needs: a previous bar, and the symmetric swing window
      when swing detection is on, so a history of at least 2 * swingLookback + 1 bars.
      The older half of the window is what the host's history gate guarantees; the newer
      half is assumed. */
  predicate Evaluable(cfg: DetectionConfig, s: seq<Bar>, c: int)
    ensures Evaluable(cfg, s, c) ==> |s| >= 2
    ensures Evaluable(cfg, s, c) && cfg.detectSwingHighLow ==>
      cfg.swingLookback <= c && |s| >= 2 * cfg.swingLookback + 1
  {
    1 <= c < |s| && (cfg.detectSwingHighLow ==> WindowFits(|s|, c, cfg.swingLookback))
  }

  /** Swing detection is on and one of the two window tests holds. A lookback below one
      leaves nothing to compare, so then every bar fires. */
  predicate SwingFires(cfg: DetectionConfig, s: seq<Bar>, c: int)
    requires Evaluable(cfg, s, c)
    ensures SwingFires(cfg, s, c) ==> cfg.detectSwingHighLow
    ensures cfg.detectSwingHighLow && cfg.swingLookback <= 0 ==> SwingFires(cfg, s, c)
  {
    cfg.detectSwingHighLow
    && (SwingHighAt(s, c, cfg.swingLookback) || SwingLowAt(s, c, cfg.swingLookback))
  }

  /** The classification of the bar at position `c`, the highest-ranked match winning.
      Every result other than CommonBar comes from a family that is switched on. */
  function Classify(cfg: DetectionConfig, s: seq<Bar>, c: int, atr: real): (t: BarType)
    requires Evaluable(cfg, s, c)
    ensures (t == BullishElephant || t == BearishElephant) ==> ElephantMatch(cfg, s[c], atr)
    ensures (t == BullishTail || t == BearishTail) ==> TailMatch(cfg, s[c], atr)
    ensures (t == BullishEngulfing || t == BearishEngulfing) ==> EngulfingMatch(cfg, s[c], s[c - 1], atr)
    ensures (t == SwingHigh || t == SwingLow) ==> SwingFires(cfg, s, c)
  {
    var cur, prev := s[c], s[c - 1];
    if cfg.detectSwingHighLow && SwingHighAt(s, c, cfg.swingLookback) then SwingHigh
    else if cfg.detectSwingHighLow && SwingLowAt(s, c, cfg.swingLookback) then SwingLow
    else if EngulfingSized(cfg, cur, atr) && BullishEngulfs(cfg.engulfWick, cur, prev) then BullishEngulfing
    else if EngulfingSized(cfg, cur, atr) && BearishEngulfs(cfg.engulfWick, cur, prev) then BearishEngulfing
    else if TailMatch(cfg, cur, atr) then
      (if LowerTail(cur) > UpperTail(cur) then BullishTail else BearishTail)
    else if ElephantMatch(cfg, cur, atr) then
      (if IsBullish(cur) then BullishElephant else BearishElephant)
    else CommonBar
  }

  /** The source's cascade: start from CommonBar and let each enabled family that matches
      overwrite the result, in the order elephant, tail, engulfing, swing. The source only
      ever evaluates offset 0, the newest bar handed to it; here that bar is `s[c]`. */
  method DetectCurrentBarType(cfg: DetectionConfig, s: seq<Bar>, c: int, atr: real)
    returns (currentBarType: BarType)
    requires Evaluable(cfg, s, c)
    ensures currentBarType == Classify(cfg, s, c, atr)
  {
    currentBarType := CommonBar;

    var closePrice, openPrice, lowPrice, highPrice := s[c].close, s[c].open, s[c].low, s[c].high;
    var prevClose, prevOpen, prevHigh, prevLow := s[c - 1].close, s[c - 1].open, s[c - 1].high, s[c - 1].low;

    var lowerTail := if closePrice > openPrice then openPrice - lowPrice else closePrice - lowPrice;
    var upperTail := if closePrice > openPrice then highPrice - closePrice else highPrice - openPrice;
    var bodySize := if closePrice - openPrice >= 0.0 then closePrice - openPrice else openPrice - closePrice;
    var candleRange := highPrice - lowPrice;
    var isBullish := closePrice > openPrice;
    var largerTail := if lowerTail > upperTail then lowerTail else upperTail;
    ghost var cur, prev := s[c], s[c - 1];
    assert candleRange == Range(cur) && bodySize == BodySize(cur) && largerTail == LargerTail(cur);
    assert lowerTail == LowerTail(cur) && upperTail == UpperTail(cur);

    // elephant
    if cfg.detectElephantBars && candleRange >= cfg.elephantMinSize * atr
      && PercentAtLeast(bodySize, candleRange, cfg.elephantBodySizePercent)
    {
      currentBarType := if isBullish then BullishElephant else BearishElephant;
    }
    assert currentBarType == if ElephantMatch(cfg, cur, atr) then
      (if IsBullish(cur) then BullishElephant else BearishElephant) else CommonBar;

    // tail
    if cfg.detectTailBars && candleRange >= cfg.tailBarMinSize * atr
      && PercentAtLeast(largerTail, candleRange, cfg.tailMinPercent)
    {
      currentBarType := if lowerTail > upperTail then BullishTail else BearishTail;
    }
    ghost var pattern := currentBarType;
    assert pattern == if TailMatch(cfg, cur, atr) then
      (if LowerTail(cur) > UpperTail(cur) then BullishTail else BearishTail)
      else if ElephantMatch(cfg, cur, atr) then
      (if IsBullish(cur) then BullishElephant else BearishElephant) else CommonBar;

    // engulfing
    if cfg.detectEngulfingBars && candleRange >= cfg.engulfingMinSize * atr {
      if cfg.engulfWick {
        if closePrice > openPrice && prevClose < prevOpen && openPrice < prevLow && closePrice > prevHigh {
          currentBarType := BullishEngulfing;
        } else if closePrice < openPrice && prevClose > prevOpen && openPrice > prevHigh && closePrice < prevLow {
          currentBarType := BearishEngulfing;
        }
      } else {
        if closePrice > openPrice && prevClose < prevOpen && openPrice < prevClose && closePrice > prevOpen {
          currentBarType := BullishEngulfing;
        } else if closePrice < openPrice && prevClose > prevOpen && openPrice > prevClose && closePrice < prevOpen {
          currentBarType := BearishEngulfing;
        }
      }
    }

    assert currentBarType ==
      if EngulfingSized(cfg, cur, atr) && BullishEngulfs(cfg.engulfWick, cur, prev) then BullishEngulfing
      else if EngulfingSized(cfg, cur, atr) && BearishEngulfs(cfg.engulfWick, cur, prev) then BearishEngulfing
      else pattern;

    // swing high / low
    if cfg.detectSwingHighLow {
      var high, _ := IsSwingHigh(s, c, cfg.swingLookback);
      if high {
        currentBarType := SwingHigh;
      } else {
        var low, _ := IsSwingLow(s, c, cfg.swingLookback);
        if low {
          currentBarType := SwingLow;
        }
      }
    }
  }
}
