# Trigger Bar Detector — a Dafny model of the bar classifier

The Trigger Bar Detector is a Quantower chart indicator. When a bar closes, it gives
that bar one `BarType`:

- a momentum ("elephant") bar;
- a rejection ("tail") bar;
- an engulfing bar, which engulfs either the previous bar's body or its whole range;
- a swing point, found by scanning a window of neighbours on both sides;
- `CommonBar` when nothing matches.

This project models the part that decides the classification and proves what it promises.

- `bars.dfy` (module `Bars`): the bar record and the `BarType` enumeration. Also the
  per-bar measures the detector derives: range, body, lower and upper tail, and the larger
  tail. It also holds `PercentAtLeast`, the ratio test `(part / range) * 100 >= pct`.
  Prices and the ATR value are exact `real`s. The only double behaviour reproduced is
  division by a zero range: a positive part over zero is +Infinity and passes; a negative
  part is -Infinity and fails; zero over zero is NaN and fails. Rounding is not modelled:
  where a ratio or a size sits exactly on its threshold, the double computation can fall
  on the other side of it.
- `config.dfy` (module `Config`): the detection settings the indicator keeps in fields,
  as one value, with the indicator's initial values (`Default`) and the bounds its
  settings editor puts on the numeric thresholds (`InEditorRanges`).
- `swing.dfy` (module `Swing`): the two window scans, `IsSwingHigh` and `IsSwingLow`.
  Each is a loop method with an early exit, proved equal to a quantified predicate
  (`SwingHighAt` / `SwingLowAt`). The loops are also proved to examine at most `lookback`
  offsets. The source's naming is kept as it is: `IsSwingHigh` tests that the bar's LOW is
  a window minimum, and `IsSwingLow` tests that its HIGH is a window maximum.
- `classifier.dfy` (module `Classifier`): `DetectCurrentBarType` is the source's cascade.
  It starts at `CommonBar`, then elephant, tail, engulfing and swing each overwrite the
  result when enabled and matching. `Classify` is an independent reference definition:
  a ranking checked from the top, where the first match wins. The method is proved to
  return exactly `Classify`'s value.
- `properties.dfy` (module `ClassifierProperties`): lemmas about `Classify`. They cover
  precedence, the direction of each family, zero-range bars, mutual exclusion of the two
  engulfing directions, wick mode being stricter than body mode, the swing override,
  window facts, and gating by the enable flags.
- `worked_examples.dfy` (module `WorkedExamples`): concrete bars classified under the
  default settings with swing detection off or under any configuration without swing
  detection, and one swing case with a one-bar window.

History is a `seq<Bar>`, oldest first, and the evaluated bar sits at position `c`. The
source addresses bars by offset from the evaluated bar, where a positive offset is older.
So its offset `k` is position `c - k` here, and the previous bar is `s[c - 1]`.
`Evaluable` requires a previous bar. When swing detection is on, it also requires
`swingLookback` bars on both sides of `c`. The history gate in `OnUpdate`
(TriggerBarDetector.cs:80) guarantees the previous bar whenever `ATRPeriod >= 1`, and the
`swingLookback` older bars. Nothing in the source checks that the `swingLookback` newer
bars exist; the in-method guards at lines 202 and 215 are commented out.
The settings editor puts no bounds on `swingLookback` (TriggerBarDetector.cs:385-389).
With a lookback of zero or less the scans compare nothing, so with swing detection on
every bar is `SwingHigh` (`ClassifierProperties.NonPositiveLookbackIsSwingHigh`).

`engulfingMinSize` is described as a maximum wick size in percent, where zero disables
the feature (TriggerBarDetector.cs:32, and the settings label at :351). The code uses it
as a minimum range in ATR multiples (TriggerBarDetector.cs:174), and the model follows the
code. A zero value there opens the size gate to every well-formed bar
(`ClassifierProperties.ZeroEngulfingMinSizeOpensGate`).

The tail direction follows the longer tail, not the bar's own direction: open 105,
high 106, low 80, close 100 closes down, yet it is `BullishTail` (TriggerBarDetector.cs:171;
`WorkedExamples.TailDirectionFollowsLongerTail`). The two swing tests are non-strict, so
both can hold on the same bar; `SwingHigh` then wins (TriggerBarDetector.cs:192-195;
`ClassifierProperties.FlatWindowIsSwingHigh`).

## Model

| member | source | states |
|---|---|---|
| Bars.IsBullish | TriggerBarDetector.cs:162 | a bullish bar has a positive body equal to close − open; any other bar's body is open − close |
| Bars.Range | TriggerBarDetector.cs:159 | the candle range is never negative for a well-formed bar |
| Bars.BodySize | TriggerBarDetector.cs:158 | the body is the absolute open–close difference: non-negative, one of the two signed differences, and no larger than the range of a well-formed bar |
| Bars.LowerTail | TriggerBarDetector.cs:156 | the lower tail of a well-formed bar lies between 0 and the range |
| Bars.UpperTail | TriggerBarDetector.cs:157 | the upper tail of a well-formed bar lies between 0 and the range |
| Bars.LargerTail | TriggerBarDetector.cs:163 | the tail used by the tail ratio is the maximum of the two tails |
| Bars.PercentAtLeast | TriggerBarDetector.cs:160-163 | the ratio test `(part/whole)*100 >= pct`: on a positive range it equals `part*100 >= pct*whole`; on a negative range the inequality flips; on a zero range it passes exactly when the part is positive (+Infinity) and fails for -Infinity and NaN |
| Config.Default | TriggerBarDetector.cs:12-39 | the initial field values switch every family on, choose body-only engulfing, lie inside the settings editor's bounds (TriggerBarDetector.cs:263-354) and give a window of at least one bar |
| Swing.SwingHighAt | TriggerBarDetector.cs:217-223 | "no lower low at any offset 1..lookback on either side" is the same as "the bar's low is the minimum over positions c-lookback..c+lookback" |
| Swing.SwingLowAt | TriggerBarDetector.cs:204-210 | "no higher high at any offset 1..lookback on either side" is the same as "the bar's high is the maximum over positions c-lookback..c+lookback" |
| Swing.IsSwingHigh | TriggerBarDetector.cs:213-224 | the scan returns true iff for every i in 1..swingLookback neither the bar i older nor the bar i newer has a lower low; it examines at most swingLookback offsets, and all of them when it returns true |
| Swing.IsSwingLow | TriggerBarDetector.cs:200-211 | the scan returns true iff for every i in 1..swingLookback neither the bar i older nor the bar i newer has a higher high; it examines at most swingLookback offsets, and all of them when it returns true |
| Classifier.ElephantMatch | TriggerBarDetector.cs:158-166 | an elephant match needs the flag and a range of at least elephantMinSize ATRs, and on a well-formed bar a positive range (the NaN guard) |
| Classifier.TailMatch | TriggerBarDetector.cs:156-170 | a tail match needs the flag and a range of at least tailBarMinSize ATRs, and on a well-formed bar a positive range (the NaN guard) |
| Classifier.EngulfingSized | TriggerBarDetector.cs:174 | the engulfing gate needs the flag; with a positive engulfingMinSize and ATR it rejects every bar without range |
| Classifier.BullishEngulfs | TriggerBarDetector.cs:176-183 | never holds together with the bearish test; against a well-formed previous bar, in either mode, the current body spans the previous one: open < prevClose < prevOpen < close |
| Classifier.BearishEngulfs | TriggerBarDetector.cs:179-184 | against a well-formed previous bar, in either mode, the current body spans the previous one: close < prevOpen < prevClose < open |
| Classifier.EngulfingMatch | TriggerBarDetector.cs:174-185 | an engulfing match needs the flag, a bar with close ≠ open, and a previous bar pointing the other way; against a well-formed previous bar a wick-mode match also passes the body-mode test |
| Classifier.Evaluable | TriggerBarDetector.cs:80 | an evaluable position has a previous bar, and with swing detection on at least swingLookback older bars and a history of at least 2·swingLookback + 1 bars |
| Classifier.SwingFires | TriggerBarDetector.cs:190-195 | a swing fires only with swing detection on; with detection on and a lookback of zero or less it always fires |
| Classifier.Classify | TriggerBarDetector.cs:142-199 | the reference ranking (swing high, swing low, bullish and bearish engulfing, tail, elephant, CommonBar; first match wins); every non-CommonBar result comes from an enabled family whose test matched |
| Classifier.DetectCurrentBarType | TriggerBarDetector.cs:142-199 | the last-match-wins cascade (elephant, tail, engulfing in the mode chosen by engulfWick, then swing high before swing low) returns exactly the first-match-wins ranking `Classify` |
| ClassifierProperties.PercentOfRangeOnWellFormedBar | TriggerBarDetector.cs:160-163 | for a well-formed bar the double ratio test is the same as an explicit `range > 0` guard plus the exact comparison |
| ClassifierProperties.ElephantOutcome | TriggerBarDetector.cs:166-167 | the result is an elephant type iff the elephant test passed and no tail, engulfing or swing match followed; BullishElephant only when close > open, BearishElephant only when close <= open |
| ClassifierProperties.ElephantThresholds | TriggerBarDetector.cs:158-166 | on a well-formed bar, elephant matches iff range >= elephantMinSize·ATR, range > 0, and body·100 >= elephantBodySizePercent·range |
| ClassifierProperties.TailThresholds | TriggerBarDetector.cs:156-170 | on a well-formed bar, tail matches iff range >= tailBarMinSize·ATR, range > 0, and largerTail·100 >= tailMinPercent·range |
| ClassifierProperties.ElephantMonotoneInBodyPercent | TriggerBarDetector.cs:160-166 | raising elephantBodySizePercent can only remove elephant matches |
| ClassifierProperties.TailOutcome | TriggerBarDetector.cs:169-171 | the result is a tail type iff the tail test passed and no engulfing or swing match followed, whatever the elephant test said (so a tail match replaces an elephant match); it is BullishTail iff lowerTail > upperTail |
| ClassifierProperties.ZeroRangeBar | TriggerBarDetector.cs:159-183 | a well-formed bar with high == low never passes the elephant, tail or engulfing test, so it is CommonBar unless a swing fires |
| ClassifierProperties.EngulfingDirections | TriggerBarDetector.cs:176-185 | bullish and bearish engulfing exclude each other; each needs the previous bar to point the other way; a bar with close == open engulfs nothing |
| ClassifierProperties.EngulfingOutcome | TriggerBarDetector.cs:173-186 | the result is an engulfing type iff the engulfing test passed and no swing fired, overriding elephant and tail; the direction conditions hold for the current and previous bars |
| ClassifierProperties.ZeroEngulfingMinSizeOpensGate | TriggerBarDetector.cs:174 | with engulfingMinSize 0, a well-formed bar passes the engulfing size gate iff the family is on |
| ClassifierProperties.WickEngulfingImpliesBodyEngulfing | TriggerBarDetector.cs:176-185 | with a well-formed previous bar, a wick-inclusive engulfing implies the same-direction body-only engulfing |
| ClassifierProperties.WickModeIsStricter | TriggerBarDetector.cs:33 | with a well-formed previous bar, every engulfing classification made with engulfWick on is also made with it off |
| ClassifierProperties.SwingOutcome | TriggerBarDetector.cs:190-196 | the result is SwingHigh iff swing detection is on and the swing-high scan holds; it is SwingLow iff detection is on, the swing-high scan fails and the swing-low scan holds |
| ClassifierProperties.FlatWindowIsSwingHigh | TriggerBarDetector.cs:190-224 | on a window of identical bars both scans hold and the result is SwingHigh |
| ClassifierProperties.SwingShorterLookback | TriggerBarDetector.cs:200-224 | a swing found with some lookback is also found with any shorter lookback |
| ClassifierProperties.NonPositiveLookbackIsSwingHigh | TriggerBarDetector.cs:190-224 | with swing detection on and swingLookback <= 0, every evaluable bar is SwingHigh |
| ClassifierProperties.NearbySwingsAreLevel | TriggerBarDetector.cs:200-224 | two swing highs at most one lookback apart have equal lows; two such swing lows have equal highs |
| ClassifierProperties.DisabledFamiliesAreSilent | TriggerBarDetector.cs:144-196 | a family whose detect flag is off never produces its own BarType; with all four flags off the result is CommonBar |
| ClassifierProperties.CommonBarMeansNoMatch | TriggerBarDetector.cs:144-198 | CommonBar is returned iff no enabled family matches |
| WorkedExamples.BullishElephantExample | TriggerBarDetector.cs:166-167 | open 100, high 111, low 99, close 110 with ATR 5, under the defaults with swing detection off, is BullishElephant |
| WorkedExamples.TailDirectionFollowsLongerTail | TriggerBarDetector.cs:170-171 | open 105, high 106, low 80, close 100 with ATR 10, under the defaults with swing detection off, has tails 20 and 1 and is BullishTail |
| WorkedExamples.BodyEngulfingExample | TriggerBarDetector.cs:183 | open 44, close 52 after a bar from 50 down to 45 is BullishEngulfing under the defaults with swing detection off, although it also passes the elephant test |
| WorkedExamples.WickModeRejectsExample | TriggerBarDetector.cs:176-183 | the same kind of pair, with previous wicks beyond the current range, engulfs in body mode and stays an elephant in wick mode |
| WorkedExamples.ZeroRangeExample | TriggerBarDetector.cs:159-170 | a doji with no range is CommonBar under any settings without swing detection |
| WorkedExamples.SwingHighOverridesElephant | TriggerBarDetector.cs:190-193 | under the defaults with a lookback of 1, an elephant bar with no lower low beside it is SwingHigh |

## Left out

- `OnInit` and the ATR indicator (TriggerBarDetector.cs:70-75, 82, 161) are calls into the
  host's built-in ATR. The ATR value at the evaluated bar is a `real` parameter.
- `OnUpdate` (TriggerBarDetector.cs:77-95) is host plumbing: the bar count, `SetValue` and
  the ATR refresh. Its history gate (`index < ATRPeriod || index < swingLookback`) is
  replaced by the `Evaluable` precondition. That precondition also asks for `swingLookback`
  newer bars, which the source never checks; what the host returns for a missing newer bar
  is not part of this model.
- `DetectCurrentBarType`'s `index` argument: the source always passes 0 and reads the
  current bar's prices at offset 0 whatever the index, so the model has one position `c`
  for both.
- `UpdateMarker` (TriggerBarDetector.cs:97-139) only draws markers: colours, icons, offsets,
  and the mapping from BarType to line series.
- The `Settings` property (TriggerBarDetector.cs:239-450) is the GUI editor for the fields;
  it does not take part in detection.
- `tailColorMatters`, `floatAllowance` and `swingConfirmationBars` are kept in
  `DetectionConfig` but never read, as in the source. The colour fields, `ATRPeriod` and
  the four `last…`/`…Index` fields (TriggerBarDetector.cs:43-48) are not modelled: detection
  never writes them, and the colours are only read for drawing.
- Double rounding: prices, products and quotients are exact reals. Only the zero-range
  division (Infinity and NaN) follows double semantics.
