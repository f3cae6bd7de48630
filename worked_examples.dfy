/** Worked classifications of concrete bars, under the default settings with swing
    detection switched off (NoSwing), under any configuration without swing detection,
    or with a one-bar swing window where a swing is the point. */
module WorkedExamples {
  import opened Bars
  import opened Config
  import opened Classifier

  /** The default settings with the swing family switched off, so that two bars suffice. */
  const NoSwing := Default().(detectSwingHighLow := false)

  /** A previous bar that closes at its open and so is never engulfed. */
  const Flat100 := Bar(100.0, 101.0, 99.0, 100.0)

  /** Range 12 against 1.3 ATRs of 5, body 10 of 12 (83%): a bullish elephant. */
  lemma BullishElephantExample()
    ensures ElephantMatch(NoSwing, Bar(100.0, 111.0, 99.0, 110.0), 5.0)
    ensures Classify(NoSwing, [Flat100, Bar(100.0, 111.0, 99.0, 110.0)], 1, 5.0) == BullishElephant
  {
  }

  /** A falling bar whose lower tail (20) is the longer one, at 77% of its range of 26:
      the tail family calls it bullish, because the direction follows the longer tail
      and not the bar's own direction. */
  lemma TailDirectionFollowsLongerTail()
    ensures TailMatch(NoSwing, Bar(105.0, 106.0, 80.0, 100.0), 10.0)
    ensures LowerTail(Bar(105.0, 106.0, 80.0, 100.0)) == 20.0
    ensures UpperTail(Bar(105.0, 106.0, 80.0, 100.0)) == 1.0
    ensures Classify(NoSwing, [Flat100, Bar(105.0, 106.0, 80.0, 100.0)], 1, 10.0) == BullishTail
  {
  }

  /** A bullish bar opening below a bearish bar's close and closing above its open engulfs
      it; the bar also passes the elephant test, and the engulfing result replaces it. */
  lemma BodyEngulfingExample()
    ensures ElephantMatch(NoSwing, Bar(44.0, 52.0, 44.0, 52.0), 5.0)
    ensures Classify(NoSwing, [Bar(50.0, 50.0, 45.0, 45.0), Bar(44.0, 52.0, 44.0, 52.0)], 1, 5.0)
      == BullishEngulfing
  {
  }

  /** The same pair does not engulf in wick mode when the previous bar's wicks reach
      beyond the current bar's range. */
  lemma WickModeRejectsExample()
    ensures Classify(NoSwing.(engulfWick := true),
                     [Bar(50.0, 53.0, 43.0, 45.0), Bar(44.0, 52.0, 44.0, 52.0)], 1, 5.0)
      == BullishElephant
    ensures Classify(NoSwing,
                     [Bar(50.0, 53.0, 43.0, 45.0), Bar(44.0, 52.0, 44.0, 52.0)], 1, 5.0)
      == BullishEngulfing
  {
  }

  /** A doji without range matches nothing, whatever the thresholds. */
  lemma ZeroRangeExample(cfg: DetectionConfig, atr: real)
    requires !cfg.detectSwingHighLow
    ensures Classify(cfg, [Flat100, Bar(100.0, 100.0, 100.0, 100.0)], 1, atr) == CommonBar
  {
  }

  /** An elephant bar with no lower low beside it is classified SwingHigh. */
  lemma SwingHighOverridesElephant()
    ensures ElephantMatch(Default().(swingLookback := 1), Bar(100.0, 111.0, 99.0, 110.0), 5.0)
    ensures Classify(Default().(swingLookback := 1),
                     [Flat100, Bar(100.0, 111.0, 99.0, 110.0), Bar(110.0, 115.0, 105.0, 112.0)], 1, 5.0)
      == SwingHigh
  {
  }
}
