/** What the classification promises, stated over Classify (and so, through
    DetectCurrentBarType's postcondition, over the source's cascade). */
module ClassifierProperties {
  import opened Bars
  import opened Config
  import opened Swing
  import opened Classifier

  // ---------------------------------------------------------------- ratios

  /** For a well-formed bar the double-arithmetic percent test is an explicit
      positive-range guard followed by the exact comparison. */
  lemma PercentOfRangeOnWellFormedBar(b: Bar, part: real, pct: real)
    requires WellFormed(b)
    requires 0.0 <= part <= Range(b)
    ensures PercentAtLeast(part, Range(b), pct) <==> Range(b) > 0.0 && part * 100.0 >= pct * Range(b)
  {
  }

  // ---------------------------------------------------------------- elephant

  /** An elephant result means the elephant thresholds held and no later family matched;
      its direction is bullish exactly when the bar closed above its open. */
  lemma ElephantOutcome(cfg: DetectionConfig, s: seq<Bar>, c: int, atr: real)
    requires Evaluable(cfg, s, c)
    ensures var t := Classify(cfg, s, c, atr);
      (t == BullishElephant || t == BearishElephant) <==>
        ElephantMatch(cfg, s[c], atr) && !TailMatch(cfg, s[c], atr)
        && !EngulfingMatch(cfg, s[c], s[c - 1], atr) && !SwingFires(cfg, s, c)
    ensures var t := Classify(cfg, s, c, atr);
      t == BullishElephant ==> s[c].close > s[c].open
    ensures var t := Classify(cfg, s, c, atr);
      t == BearishElephant ==> s[c].close <= s[c].open
  {
  }

  /** The elephant test needs a range of `elephantMinSize` ATRs and a body of
      `elephantBodySizePercent` percent of a positive range. */
  lemma ElephantThresholds(cfg: DetectionConfig, b: Bar, atr: real)
    requires WellFormed(b)
    ensures ElephantMatch(cfg, b, atr) <==>
      cfg.detectElephantBars && Range(b) >= cfg.elephantMinSize * atr
      && Range(b) > 0.0 && BodySize(b) * 100.0 >= cfg.elephantBodySizePercent * Range(b)
  {
    PercentOfRangeOnWellFormedBar(b, BodySize(b), cfg.elephantBodySizePercent);
  }

  /** The tail test needs a range of `tailBarMinSize` ATRs and a larger tail of
      `tailMinPercent` percent of a positive range. */
  lemma TailThresholds(cfg: DetectionConfig, b: Bar, atr: real)
    requires WellFormed(b)
    ensures TailMatch(cfg, b, atr) <==>
      cfg.detectTailBars && Range(b) >= cfg.tailBarMinSize * atr
      && Range(b) > 0.0 && LargerTail(b) * 100.0 >= cfg.tailMinPercent * Range(b)
  {
    PercentOfRangeOnWellFormedBar(b, LargerTail(b), cfg.tailMinPercent);
  }

  /** Raising the body-percent threshold can only remove elephant matches. */
  lemma ElephantMonotoneInBodyPercent(cfg: DetectionConfig, b: Bar, atr: real, stricter: real)
    requires stricter >= cfg.elephantBodySizePercent
    ensures ElephantMatch(cfg.(elephantBodySizePercent := stricter), b, atr) ==> ElephantMatch(cfg, b, atr)
  {
  }

  // ---------------------------------------------------------------- tail

  /** A tail result means the tail thresholds held and no later family matched, whatever
      the elephant test said, so a tail match replaces an elephant match; it is bullish
      exactly when the lower tail is the longer one. */
  lemma TailOutcome(cfg: DetectionConfig, s: seq<Bar>, c: int, atr: real)
    requires Evaluable(cfg, s, c)
    ensures var t := Classify(cfg, s, c, atr);
      (t == BullishTail || t == BearishTail) <==>
        TailMatch(cfg, s[c], atr) && !EngulfingMatch(cfg, s[c], s[c - 1], atr) && !SwingFires(cfg, s, c)
    ensures var t := Classify(cfg, s, c, atr);
      (t == BullishTail || t == BearishTail) ==>
        (t == BullishTail <==> LowerTail(s[c]) > UpperTail(s[c]))
  {
  }

  // ---------------------------------------------------------------- zero range

  /** A well-formed bar without range never passes the elephant or tail test, since its
      ratios are NaN, and it cannot engulf either, since its close equals its open; only
      a swing can change its CommonBar classification. */
  lemma ZeroRangeBar(cfg: DetectionConfig, s: seq<Bar>, c: int, atr: real)
    requires Evaluable(cfg, s, c)
    requires WellFormed(s[c]) && s[c].high == s[c].low
    ensures !ElephantMatch(cfg, s[c], atr) && !TailMatch(cfg, s[c], atr)
    ensures !EngulfingMatch(cfg, s[c], s[c - 1], atr)
    ensures !SwingFires(cfg, s, c) ==> Classify(cfg, s, c, atr) == CommonBar
  {
  }

  // ---------------------------------------------------------------- engulfing

  /** The two engulfing directions exclude each other, each needs the previous bar to point
      the other way, and a bar that closes at its open engulfs nothing. */
  lemma EngulfingDirections(wick: bool, cur: Bar, prev: Bar)
    ensures !(BullishEngulfs(wick, cur, prev) && BearishEngulfs(wick, cur, prev))
    ensures BullishEngulfs(wick, cur, prev) ==> cur.close > cur.open && prev.close < prev.open
    ensures BearishEngulfs(wick, cur, prev) ==> cur.close < cur.open && prev.close > prev.open
    ensures cur.close == cur.open ==> !BullishEngulfs(wick, cur, prev) && !BearishEngulfs(wick, cur, prev)
  {
  }

  /** An engulfing result means the engulfing test held and no swing fired, whatever the
      elephant and tail tests said; its direction follows the bar's. */
  lemma EngulfingOutcome(cfg: DetectionConfig, s: seq<Bar>, c: int, atr: real)
    requires Evaluable(cfg, s, c)
    ensures var t := Classify(cfg, s, c, atr);
      (t == BullishEngulfing || t == BearishEngulfing) <==>
        EngulfingMatch(cfg, s[c], s[c - 1], atr) && !SwingFires(cfg, s, c)
    ensures Classify(cfg, s, c, atr) == BullishEngulfing ==>
      s[c].close > s[c].open && s[c - 1].close < s[c - 1].open
    ensures Classify(cfg, s, c, atr) == BearishEngulfing ==>
      s[c].close < s[c].open && s[c - 1].close > s[c - 1].open
  {
  }

  /** Engulfing the previous bar's whole range implies engulfing its body. */
  lemma WickEngulfingImpliesBodyEngulfing(cur: Bar, prev: Bar)
    requires WellFormed(prev)
    ensures BullishEngulfs(true, cur, prev) ==> BullishEngulfs(false, cur, prev)
    ensures BearishEngulfs(true, cur, prev) ==> BearishEngulfs(false, cur, prev)
  {
  }

  /** A zero `engulfingMinSize` switches the size gate off: every well-formed bar passes it
      when the family is on. */
  lemma ZeroEngulfingMinSizeOpensGate(cfg: DetectionConfig, b: Bar, atr: real)
    requires WellFormed(b) && cfg.engulfingMinSize == 0.0
    ensures EngulfingSized(cfg, b, atr) <==> cfg.detectEngulfingBars
  {
  }

  /** Switching from body to wick engulfing can only remove engulfing results:
      with a well-formed previous bar, every engulfing classification under `engulfWick`
      is the same classification without it. */
  lemma WickModeIsStricter(cfg: DetectionConfig, s: seq<Bar>, c: int, atr: real)
    requires Evaluable(cfg, s, c) && WellFormed(s[c - 1]) && cfg.engulfWick
    ensures var t := Classify(cfg, s, c, atr);
      (t == BullishEngulfing || t == BearishEngulfing) ==>
        Classify(cfg.(engulfWick := false), s, c, atr) == t
  {
    WickEngulfingImpliesBodyEngulfing(s[c], s[c - 1]);
  }

  // ---------------------------------------------------------------- swing

  /** With swing detection on, a swing high replaces whatever the other families matched,
      and a swing low does so when the bar is not a swing high. */
  lemma SwingOutcome(cfg: DetectionConfig, s: seq<Bar>, c: int, atr: real)
    requires Evaluable(cfg, s, c)
    ensures Classify(cfg, s, c, atr) == SwingHigh <==>
      cfg.detectSwingHighLow && SwingHighAt(s, c, cfg.swingLookback)
    ensures Classify(cfg, s, c, atr) == SwingLow <==>
      cfg.detectSwingHighLow && !SwingHighAt(s, c, cfg.swingLookback) && SwingLowAt(s, c, cfg.swingLookback)
  {
  }

  /** Both window tests hold on a window of identical bars, and SwingHigh then wins: the
      two are not exclusive, because both comparisons are non-strict. */
  lemma FlatWindowIsSwingHigh(cfg: DetectionConfig, s: seq<Bar>, c: int, atr: real)
    requires Evaluable(cfg, s, c) && cfg.detectSwingHighLow
    requires forall k :: c - cfg.swingLookback <= k <= c + cfg.swingLookback ==> s[k] == s[c]
    ensures SwingHighAt(s, c, cfg.swingLookback) && SwingLowAt(s, c, cfg.swingLookback)
    ensures Classify(cfg, s, c, atr) == SwingHigh
  {
    forall i | 1 <= i <= cfg.swingLookback
      ensures LowsNotBelow(s, c, i) && HighsNotAbove(s, c, i)
    {
      assert s[c - i] == s[c] && s[c + i] == s[c];
    }
  }

  /** A swing for a lookback is a swing for every shorter lookback. */
  lemma SwingShorterLookback(s: seq<Bar>, c: int, lookback: int, shorter: int)
    requires WindowFits(|s|, c, lookback) && shorter <= lookback && WindowFits(|s|, c, shorter)
    ensures SwingHighAt(s, c, lookback) ==> SwingHighAt(s, c, shorter)
    ensures SwingLowAt(s, c, lookback) ==> SwingLowAt(s, c, shorter)
  {
  }

  /** With swing detection on and a lookback below one, the scans compare nothing and
      every bar is a SwingHigh. */
  lemma NonPositiveLookbackIsSwingHigh(cfg: DetectionConfig, s: seq<Bar>, c: int, atr: real)
    requires Evaluable(cfg, s, c) && cfg.detectSwingHighLow && cfg.swingLookback <= 0
    ensures Classify(cfg, s, c, atr) == SwingHigh
  {
  }

  /** Two swing highs at most a lookback apart sit on equal lows, and two swing lows on
      equal highs: each lies in the other's window. */
  lemma NearbySwingsAreLevel(s: seq<Bar>, c1: int, c2: int, lookback: int)
    requires WindowFits(|s|, c1, lookback) && WindowFits(|s|, c2, lookback)
    requires c1 < c2 <= c1 + lookback
    ensures SwingHighAt(s, c1, lookback) && SwingHighAt(s, c2, lookback) ==> s[c1].low == s[c2].low
    ensures SwingLowAt(s, c1, lookback) && SwingLowAt(s, c2, lookback) ==> s[c1].high == s[c2].high
  {
    var d := c2 - c1;
    assert c1 + d == c2 && c2 - d == c1;
    if SwingHighAt(s, c1, lookback) && SwingHighAt(s, c2, lookback) {
      assert LowsNotBelow(s, c1, d) && LowsNotBelow(s, c2, d);
    }
    if SwingLowAt(s, c1, lookback) && SwingLowAt(s, c2, lookback) {
      assert HighsNotAbove(s, c1, d) && HighsNotAbove(s, c2, d);
    }
  }

  // ---------------------------------------------------------------- gating

  /** A family that is switched off never produces its own classification, and with every
      family off the result is CommonBar. */
  lemma DisabledFamiliesAreSilent(cfg: DetectionConfig, s: seq<Bar>, c: int, atr: real)
    requires Evaluable(cfg, s, c)
    ensures var t := Classify(cfg, s, c, atr);
      !cfg.detectElephantBars ==> t != BullishElephant && t != BearishElephant
    ensures var t := Classify(cfg, s, c, atr);
      !cfg.detectTailBars ==> t != BullishTail && t != BearishTail
    ensures var t := Classify(cfg, s, c, atr);
      !cfg.detectEngulfingBars ==> t != BullishEngulfing && t != BearishEngulfing
    ensures var t := Classify(cfg, s, c, atr);
      !cfg.detectSwingHighLow ==> t != SwingHigh && t != SwingLow
    ensures (!cfg.detectElephantBars && !cfg.detectTailBars && !cfg.detectEngulfingBars
             && !cfg.detectSwingHighLow) ==> Classify(cfg, s, c, atr) == CommonBar
  {
  }

  /** CommonBar is returned exactly when no enabled family matches. */
  lemma CommonBarMeansNoMatch(cfg: DetectionConfig, s: seq<Bar>, c: int, atr: real)
    requires Evaluable(cfg, s, c)
    ensures Classify(cfg, s, c, atr) == CommonBar <==>
      !ElephantMatch(cfg, s[c], atr) && !TailMatch(cfg, s[c], atr)
      && !EngulfingMatch(cfg, s[c], s[c - 1], atr) && !SwingFires(cfg, s, c)
  {
  }
}
