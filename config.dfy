/** The detector's settings that the classification reads, with the defaults the
    indicator starts with. */
module Config {

  datatype DetectionConfig = DetectionConfig(
    // which families are evaluated
    detectElephantBars: bool,
    detectTailBars: bool,
    detectEngulfingBars: bool,
    detectSwingHighLow: bool,
    // elephant bars: minimum range as a multiple of the ATR, minimum body share of the range in percent
    elephantMinSize: real,
    elephantBodySizePercent: real,
    // tail bars: minimum range as a multiple of the ATR, minimum share of the larger tail in percent
    tailBarMinSize: real,
    tailMinPercent: real,
    tailColorMatters: bool,      // display only; never read by the classification
    // engulfing bars
    floatAllowance: real,        // reserved; never read by the classification
    engulfingMinSize: real,      // minimum range as a multiple of the ATR
    engulfWick: bool,            // true: engulf the previous bar's wicks; false: its body
    // swing points: bars compared on each side of the evaluated bar
    swingLookback: int,
    swingConfirmationBars: int   // reserved; never read by the classification
  )

  /** The bounds the indicator's settings editor puts on the numeric thresholds. The
      editor sets no bounds on the two integer settings. */
  predicate InEditorRanges(cfg: DetectionConfig) {
    0.1 <= cfg.elephantMinSize <= 5.0
    && 0.1 <= cfg.elephantBodySizePercent <= 100.0
    && 0.1 <= cfg.tailBarMinSize <= 10.0
    && 0.1 <= cfg.tailMinPercent <= 100.0
    && 0.0 <= cfg.floatAllowance <= 10.0
    && 0.1 <= cfg.engulfingMinSize <= 100.0
  }

  /** The values the indicator's fields are initialised with: every family on, body-only
      engulfing, thresholds inside the editor's bounds and a window of at least one bar. */
  function Default(): (cfg: DetectionConfig)
    ensures InEditorRanges(cfg) && cfg.swingLookback >= 1
    ensures cfg.detectElephantBars && cfg.detectTailBars && cfg.detectEngulfingBars && cfg.detectSwingHighLow
    ensures !cfg.engulfWick
  {
    DetectionConfig(
      detectElephantBars := true,
      detectTailBars := true,
      detectEngulfingBars := true,
      detectSwingHighLow := true,
      elephantMinSize := 1.3,
      elephantBodySizePercent := 70.0,
      tailBarMinSize := 1.0,
      tailMinPercent := 75.0,
      tailColorMatters := false,
      floatAllowance := 0.0,
      engulfingMinSize := 1.0,
      engulfWick := false,
      swingLookback := 10,
      swingConfirmationBars := 1
    )
  }
}
