# ojsama core in Dafny

This project models the osu!standard calculator in `ojsama.js`: the mod
bitmask and its two-letter string form, the beatmap statistics that mods
change (approach rate, overall difficulty, circle size, drain), the maximum
combo of a beatmap, the star-rating difficulty engine (strains, 400 ms
windows, weighted sum, total stars, singletap counts), the accuracy
calculator (counts to accuracy and accuracy percentage to counts), and the
performance-point (pp) calculator for raw parameters.

Modules, one per file:

- `Numeric` (`numeric.dfy`): the `Option`/`Result` types that stand for
  `undefined` and `throw`, `Math.ceil`/`Math.round` on exact reals, integer
  powers, and `Transcendentals`. This is the non-integer `Math.pow`,
  `Math.sqrt` and `Math.log10`, passed as a parameter. `Sane` lists the only
  facts assumed of them: positivity, non-negativity and the values at 0 and 1.
- `Mods` (`mods.dfy`): `MOD_CONSTANTS.from_string` and
  `MOD_CONSTANTS.string`. A mask is the set of its bit positions.
- `Stats` (`stats.dfy`):
  - `modify_ar` and `modify_od`;
  - `std_beatmap_stats` as a class with its per-mask cache;
  - `with_mods`.
- `Beatmaps` (`beatmap.dfy`): the beatmap record, `Beatmap.reset` and
  `Beatmap.maxCombo`. The latter is a loop over sliders with a forward-moving
  timing-point cursor, proved against a recursive specification.
- `Difficulty` (`difficulty.dfy`):
  - the difficulty hit object;
  - `_spacing_weight`, `_calc_strain`, `_calc_individual`,
    `_normalizer_vector` and `_init_objects`;
  - `std_diff` as a class whose methods update its fields;
  - the mode dispatch of `diff.calc`.
- `Accuracy` (`accuracy.dfy`): the `std_accuracy` constructor and `value`.
- `Performance` (`performance.dfy`):
  - `std_ppv2` as a class;
  - its `calc` for raw parameters, split into the same bonuses the source
    computes;
  - `_base`;
  - the mode dispatch of `ppv2`.

Imperative parts of the source are methods (with loop invariants where the
source loops), proved against specification functions: `from_string`, `string`, `with_mods`,
`maxCombo`, the strain passes, the weighted sum, the singletap loop,
`std_accuracy`, `std_diff.calc` and `std_ppv2.calc`. The properties are then
proved as lemmas about those functions.

Where the written code and its comments or the usual description differ, the
model follows the code:

- **Decay base and weight scaling.** `DECAY_BASE` and `WEIGHT_SCALING` are
  indexed by `DIFF_SPEED = 0` and `DIFF_AIM = 1`. So speed uses 0.3 and 1400,
  and aim uses 0.15 and 26.25.
- **Singletap threshold.** `singletap_threshold` reads its own hoisted local.
  Without a threshold from the caller it is therefore undefined, and no
  interval counts.
- **Comparison direction.** `nsingles_threshold` counts the intervals at or
  above the threshold (`>=`), not those faster than it.
- **Last window.** The maximum of the last strain window is never pushed.
- **Zero percent.** A `percent` of 0 counts as not given.

Two places depart from the code on purpose, because the code is wrong there
(see "## Findings"). In both, the code as written is kept as its own member,
and everything downstream uses the corrected definition, so neither `std_diff`
nor the pp calculator reproduces the source as written in these cases:

- **`_init_objects`.** As written, a calculator used again keeps the earlier
  map's hit objects in the slots it reuses. That code is `InitAsWritten`.
  The model fills every slot from the current map (`InitCorrected`), and so do
  `StdDiff.InitObjects`, `CalcSpec` and everything built on them:
  `StdDiff.Calc`, `StdDiff.CalcModded`, `CalcForMode`, `CalcSpecStars` and
  `EmptyBeatmapHasNoStars`. The strain passes and the singletap counts
  therefore read the current map's objects, not stale ones.
- **The 50s count of `std_accuracy`.** When even all 100s cannot reach a
  percentage, the code as written makes every non-missed object a 50. That
  code is `InferFromPercentAsWritten`. The model infers the 50s count that
  comes closest (`InferFromPercent`), and so do `Inferred` and `NewAccuracy`.
  So does the pp calculator, which infers its counts through them:
  `PpCalc`, `PpNonNegative`, `StdPpv2.Calc` and `Ppv2`. Below all-100s
  accuracy, their accuracy and pp differ from the source's.

## Model

| member | source | states |
|---|---|---|
| Numeric.Ceil | ojsama.js:770 | `Math.ceil`: the least integer not below x |
| Numeric.Round | ojsama.js:1306-1308 | `Math.round`: the integer within half of x, halves rounding up |
| Numeric.PowAtMostOne | ojsama.js:1481 | an integer power of a base in (0, 1] lies in (0, 1] |
| Mods.Code | ojsama.js:663-675 | every mod code is two letters |
| Mods.Lower | ojsama.js:681 | lower-casing keeps the length and maps each character |
| Mods.Upper | ojsama.js:715 | upper-casing keeps the length and maps each character |
| Mods.FromString | ojsama.js:679-698 | the loop's mask is the specified mask; it holds only defined bits; a bit is set exactly when the lower-cased string contains that mod's code |
| Mods.ToString | ojsama.js:702-721 | the loop's string is the specified one; it has even length and at most ten codes |
| Mods.FoundBits | ojsama.js:683-695 | the parsed mask holds only defined bits, each exactly when its code occurs |
| Mods.BitInjective | ojsama.js:663-675 | different codes have different bits and different spellings |
| Mods.DefinedBits | ojsama.js:663-675 | the defined bits are exactly the bits of the ten codes |
| Mods.ContainsCode | ojsama.js:679-698 | one code contains another only when they are the same code |
| Mods.LowerEmitContains | ojsama.js:702-721 | the printed string, lower-cased, contains a code exactly when that mod is set |
| Mods.RoundTrip | ojsama.js:679-721 | parsing the printed string gives back the mask restricted to the defined bits |
| Mods.PrintIsCanonical | ojsama.js:702-721 | printing ignores bits that are not defined mods |
| Mods.CaseInsensitive | ojsama.js:679-681 | parsing an upper-cased string gives the same mask as parsing the original |
| Mods.OverMatch | ojsama.js:692-694 | the substring search over-matches: "HDTD" also yields DT |
| Mods.EmitLength | ojsama.js:702-721 | the printed string has even length, two letters per code |
| Stats.ClampedArMs | ojsama.js:749-757 | the AR window is clamped to [450, 1800] ms |
| Stats.ClampedOdMs | ojsama.js:770-771 | the OD window is clamped to [19.5, 79.5] ms |
| Stats.ArRoundTrip | ojsama.js:749-762 | converting an AR to milliseconds and back gives the same AR |
| Stats.ArAtNormalSpeed | ojsama.js:743-765 | at speed 1, `modify_ar` is the scaled AR clamped to [0, 10] |
| Stats.OdAtNormalSpeed | ojsama.js:767-775 | at speed 1, `modify_od` is the scaled OD, rounded up to sixths, clamped to [0, 10] |
| Stats.ArRange | ojsama.js:753-762 | for speed 0.75 to 1.5, the modified AR lies in [-5, 11] |
| Stats.OdRange | ojsama.js:767-775 | for speed 0.75 to 1.5, the modified OD lies in [-53/12, 133/12] |
| Stats.SpeedMulValues | ojsama.js:808-810 | the speed multiplier is 1, 1.5, 0.75 or 1.125 |
| Stats.UnchangedWithoutMapChangingMods | ojsama.js:804-805 | without HR, EZ, DT, HT and NC, the stats are unchanged and the speed is 1 |
| Stats.SpeedMulOfApplyMods | ojsama.js:804-810 | the speed is one of the four values, and it is 1 exactly when no speed-changing mod is set |
| Stats.ApplyModsRanges | ojsama.js:816-839 | zero stats are left alone; with map-changing mods, AR and OD lie in the stated ranges ([0, 10] at speed 1), and CS and HP are at most 10 |
| Stats.BeatmapStats.constructor | ojsama.js:779-788 | new stats keep the given values at speed 1 with an empty cache |
| Stats.BeatmapStats.WithMods | ojsama.js:796-839 | a cached mask returns the cached object unchanged; otherwise a fresh object holding the modded stats is cached under the mask |
| Stats.ModifiedValues | ojsama.js:806-839 | the step-by-step modification equals the specified modded stats |
| Stats.WithModsTwice | ojsama.js:796-802 | a second call with the same mask returns the very same object, holding the modded stats |
| Beatmaps.Reset | ojsama.js:376-404 | a reset beatmap is standard mode, format 1, all stats 5, velocity and tick rate 1, with no objects, counts or timing points |
| Beatmaps.Cursor | ojsama.js:431-438 | the timing cursor never moves backwards and stays within the timing points |
| Beatmaps.CursorBounds | ojsama.js:431-440 | with timing points, the cursor stops on an existing point; without any, it stops at 0 (no point) |
| Beatmaps.CursorStops | ojsama.js:431-438 | the cursor stops on the last point at or before the object, before the next point's start |
| Beatmaps.SvMultiplier | ojsama.js:442-446 | the velocity multiplier of a timing point is positive |
| Beatmaps.ComboUpTo | ojsama.js:419-473 | the running timing index stays between -1 and the last point |
| Beatmaps.ComboUpToInvariant | ojsama.js:419-473 | the running combo is at least circles plus spinners, and the index is -1 exactly when no slider has been met |
| Beatmaps.ErrSticks | ojsama.js:425-473 | once a slider fails, the whole estimate fails with that error |
| Beatmaps.AdvanceCursor | ojsama.js:431-456 | the cursor loop reaches the specified timing point with its next bound and pixels per beat, or reports that none is left |
| Beatmaps.SliderStep | ojsama.js:458-472 | one slider adds its clamped tick count at the point where the cursor stops |
| Beatmaps.MaxCombo | ojsama.js:419-477 | the loop returns the specified maximum combo |
| Beatmaps.MaxComboAtLeastCirclesAndSpinners | ojsama.js:420-472 | the maximum combo is at least circles plus spinners |
| Beatmaps.NoSlidersPrefix | ojsama.js:425-427 | objects without the slider bit add nothing and leave the cursor at -1 |
| Beatmaps.MaxComboWithoutSliders | ojsama.js:420-476 | without sliders, the maximum combo is exactly circles plus spinners |
| Beatmaps.NoTimingPointsPrefix | ojsama.js:431-440 | without timing points, a slider is an error, and only then |
| Beatmaps.SliderWithoutTimingPoints | ojsama.js:440 | a slider in a map without timing points has no maximum combo |
| Beatmaps.TickCountPositive | ojsama.js:467-470 | a slider of non-negative length, at least one repetition and tick rate under 10 counts at least one |
| Beatmaps.SliderComboPositive | ojsama.js:458-472 | on a well-formed map, each slider adds at least one |
| Beatmaps.WellFormedPrefix | ojsama.js:419-473 | on a well-formed map, every prefix succeeds with at least circles plus spinners plus one per slider so far |
| Beatmaps.MaxComboOfWellFormed | ojsama.js:419-477 | on a well-formed map, the maximum combo is at least circles + spinners + sliders, and equals circles + spinners exactly when there is no slider |
| Beatmaps.SlidersInPositive | ojsama.js:426 | a prefix holding a slider counts at least one slider |
| Beatmaps.OldFormatIgnoresTimingPoints | ojsama.js:451-455 | before format version 8, which timing points a map has (at least one) does not change its maximum combo |
| Beatmaps.OldFormatPrefix | ojsama.js:451-455 | before format version 8, each prefix's combo does not depend on the timing points |
| Difficulty.ResetDiffObject | ojsama.js:852-857 | a reset difficulty object keeps its hit object, with strains and position 0 and no singletap |
| Difficulty.NewDiffObject | ojsama.js:847-850 | a new difficulty object wraps its hit object in the reset state |
| Difficulty.SpeedSpacingWeightRange | ojsama.js:1021-1036 | the speed weight lies in [0.95, 2.5]; it is 0.95 up to 45 and 2.5 beyond 125 |
| Difficulty.SpeedSpacingWeightMonotoneContinuous | ojsama.js:1021-1036 | the speed weight never decreases with distance and climbs at slope at most 0.06, so it is continuous at 45, 90, 110 and 125 |
| Difficulty.SpeedPieceBounds | ojsama.js:1021-1036 | each piece of the speed weight in closed form |
| Difficulty.NormalizerScaleMonotone | ojsama.js:1151-1170 | for circle sizes up to 10, the scale is positive and never decreases with circle size |
| Difficulty.NormalizerScaleAtFive | ojsama.js:1152-1155 | circle size 5 gives radius 32 and scale 1.625 |
| Difficulty.CalcStrain | ojsama.js:1048-1077 | a strain step keeps the hit object and position; each pass writes only its own strain; only the speed pass of a circle or slider sets the singletap flag |
| Difficulty.NextStrainBounds | ojsama.js:1055-1076 | the new strain is non-negative; with no spacing value and no elapsed-time reversal, it is at most the previous one |
| Difficulty.CalcStrainSingle | ojsama.js:1062-1066 | a circle or slider is a singletap exactly when it lies more than 125 from the previous object |
| Difficulty.CalcStrainNonNegative | ojsama.js:1048-1077 | strains stay non-negative |
| Difficulty.SpacingValueNonNegative | ojsama.js:1069-1070 | the weighted spacing value is non-negative |
| Difficulty.CalcStrainOfSpinner | ojsama.js:1055-1076 | a spinner adds nothing: its strain is exactly the previous strain times the decay over the elapsed time, so it stays between 0 and the previous strain |
| Difficulty.WindowsLeftStep | ojsama.js:1109-1126 | each closed window brings the window loop nearer its end |
| Difficulty.CloseWindows | ojsama.js:1109-1126 | closing windows keeps the objects, only appends maxima, and leaves the window end at or past the object |
| Difficulty.InsertDesc | ojsama.js:1135 | insertion adds exactly one element |
| Difficulty.InsertDescSorted | ojsama.js:1135 | inserting into a descending list keeps it descending |
| Difficulty.SortDesc | ojsama.js:1135 | the sort is a permutation of the window maxima |
| Difficulty.SortDescSorted | ojsama.js:1135 | the sorted maxima are in descending order |
| Difficulty.MaxOf | ojsama.js:1128-1135 | the maximum belongs to the list and bounds every element |
| Difficulty.GeometricSumClosed | ojsama.js:1132-1140 | the weights 0.9^i sum to 10(1 - 0.9^n), which is less than 10 |
| Difficulty.WeightedSumBounds | ojsama.js:1137-1140 | a descending non-negative list weighs at least its head and at most head times the weight sum |
| Difficulty.SortDescHead | ojsama.js:1135 | after the sort, the head is the largest maximum and all entries stay non-negative |
| Difficulty.SortedWeightedSumBounds | ojsama.js:1132-1142 | the difficulty is at least the largest maximum and less than ten times it |
| Difficulty.TopWeightedSumBounds | ojsama.js:1137-1140 | the same bounds for an already sorted list |
| Difficulty.IndividualBounds | ojsama.js:1091-1143 | no windows give difficulty 0; otherwise it lies between the largest window maximum and ten times it, strictly below when that is positive |
| Difficulty.CloseWindowsNonNegative | ojsama.js:1109-1126 | closing windows pushes only non-negative maxima |
| Difficulty.PassNonNegative | ojsama.js:1101-1130 | a pass over non-negative strains pushes only non-negative maxima |
| Difficulty.FirstWindowPrefix | ojsama.js:1108-1110 | while every object lies in the first window, nothing is pushed |
| Difficulty.FirstWindowOnly | ojsama.js:1099-1143 | the last window's maximum is never pushed: a map inside the first window has difficulty 0 |
| Difficulty.InitAsWritten | ojsama.js:1173-1215 | `_init_objects` as written yields one object per hit object |
| Difficulty.InitAsWrittenKeepsStaleObjects | ojsama.js:1185-1193 | a reused slot keeps the previous map's hit object |
| Difficulty.InitCorrected | ojsama.js:1173-1215 | the corrected initialisation yields one object per hit object |
| Difficulty.InitCorrectedFresh | ojsama.js:1185-1213 | every object wraps this map's hit object at its scaled position, with zero strains and no singletap; with nothing to reuse, as written and corrected agree |
| Difficulty.StarTotal | ojsama.js:977-979 | total stars are 1.5 times the larger plus 0.5 times the smaller of aim and speed, so at least the larger |
| Difficulty.CountSingles | ojsama.js:986-992 | at most n - 1 objects are singletaps |
| Difficulty.CountOverThreshold | ojsama.js:994-1003 | at most n - 1 intervals reach the threshold, and none without a threshold |
| Difficulty.CalcFromSteps | ojsama.js:964-1003 | the calculation is the speed pass, then the aim pass on its output, then the star formulas and counts |
| Difficulty.CalcFromStars | ojsama.js:964-979 | aim and speed stars are non-negative and total stars at least their maximum |
| Difficulty.CalcSpecStars | ojsama.js:945-1006 | the same for a whole calculation on a beatmap and mods |
| Difficulty.EmptyBeatmapHasNoStars | ojsama.js:945-1006 | an empty beatmap gets 0 stars and no singletaps |
| Difficulty.NoThresholdNoCount | ojsama.js:952-1000 | with no threshold (or 0), no interval is counted |
| Difficulty.SinglesBound | ojsama.js:981-1003 | both singletap counts are at most n - 1 |
| Difficulty.SpeedPassKeepsAim | ojsama.js:1065-1076 | the speed pass leaves aim strains alone |
| Difficulty.IndividualNonNegative | ojsama.js:1091-1143 | the difficulty of non-negative strains is non-negative |
| Difficulty.StdDiff.constructor | ojsama.js:898-929 | a new calculator has no objects, zero stars and counts, and threshold 125 |
| Difficulty.StdDiff.InitObjects | ojsama.js:1173-1215 | the objects are the corrected initialisation for the map's scale, or unchanged when the scale is undefined |
| Difficulty.StdDiff.CalcStrainAt | ojsama.js:1102-1107 | one strain step updates object i from object i - 1 and nothing else |
| Difficulty.StdDiff.CalcIndividual | ojsama.js:1091-1143 | the loop leaves the specified pass's objects and returns its difficulty |
| Difficulty.StdDiff.Calc | ojsama.js:945-1006 | the calculator succeeds exactly when the specification does, then holds its stars and counts; the threshold kept is the caller's or undefined |
| Difficulty.StdDiff.CalcModded | ojsama.js:962-1003 | the same, once speed and circle size are known |
| Difficulty.StdDiff.CalcOnObjects | ojsama.js:964-1003 | the passes and counts over initialised objects give the specified result |
| Difficulty.StdDiff.CalcPasses | ojsama.js:964-979 | the two passes and star formulas leave the specified objects and stars |
| Difficulty.StdDiff.RunPasses | ojsama.js:964-966 | speed pass, then aim pass on its output |
| Difficulty.StarSteps | ojsama.js:968-979 | star values from the raw difficulties as specified |
| Difficulty.CloseWindowsLoop | ojsama.js:1109-1126 | the window loop equals the specified window closing |
| Difficulty.WeightedLoop | ojsama.js:1132-1140 | the loop computes the weighted sum with weights 0.9^i |
| Difficulty.CountSinglesLoop | ojsama.js:981-1003 | the loop computes both specified counts |
| Difficulty.CalcForMode | ojsama.js:1239-1265 | a non-standard mode is unsupported; for standard, the calculator succeeds exactly when the specification does, with its total |
| Accuracy.ClampedRatio | ojsama.js:1345-1349 | the ratio is clamped to [0, 1], is the exact ratio for proper inputs, and fails only for 0/0 |
| Accuracy.Value | ojsama.js:1331-1350 | the accuracy lies in [0, 1]; without 300s and a number of objects it fails |
| Accuracy.PerfectValue | ojsama.js:1331-1350 | only 300s gives accuracy 1 |
| Accuracy.PerfectValueOnly | ojsama.js:1340-1349 | for non-negative counts, the accuracy is 1 exactly when there are no 100s, 50s or misses and at least one 300 |
| Accuracy.ValueOfCounts | ojsama.js:1340-1349 | non-negative counts give the exact weighted share |
| Accuracy.ValueWithObjectCount | ojsama.js:1334-1342 | deriving the 300s from the number of objects agrees with stating them |
| Accuracy.NewAccuracy | ojsama.js:1276-1323 | the constructor's counts are the specified ones (with the corrected 50s count of the finding below); with a percentage they add up to the number of objects and misses are capped by it |
| Accuracy.InferredCounts | ojsama.js:1288-1322 | with a percentage and positive object count, inference succeeds: misses capped, 100s non-negative, counts adding up, and 50s either as given or inferred within the non-miss objects |
| Accuracy.InferFromPercentCounts | ojsama.js:1294-1322 | the same for the inference proper |
| Accuracy.MaxAccuracyOf | ojsama.js:1294-1299 | the best accuracy with the given misses is 100 times the non-miss share |
| Accuracy.NeededNonNegative | ojsama.js:1306-1308 | the inferred count is non-negative for a clamped percentage |
| Accuracy.InferredIsClosest | ojsama.js:1301-1322 | with no 50s given, either no 50s are inferred and the 100s give an accuracy within half a 100 of the clamped percentage, or no 100s are inferred and the 50s come as close as 50s can |
| Accuracy.ClampedPercentBound | ojsama.js:1301-1302 | the clamped percentage lies between 0 and the best accuracy |
| Accuracy.InferFromPercent | ojsama.js:1306-1322 | the corrected inference keeps the misses, makes the counts add up to the number of objects, and either keeps the caller's 50s or infers no 100s |
| Accuracy.InferFromPercentAsWritten | ojsama.js:1306-1322 | the inference as written keeps the misses, makes the counts add up to the number of objects, and either keeps the caller's 50s or infers no 100s |
| Accuracy.InferFromPercentIsClosest | ojsama.js:1306-1322 | the same closeness for the inference proper |
| Accuracy.FiftiesBelowAllHundreds | ojsama.js:1310-1319 | as written, when even all 100s are too many, the rounded 50s always pass the cap: every non-missed object becomes a 50, with no 300s and no 100s |
| Accuracy.AllFiftiesAtThirtyPercent | ojsama.js:1310-1319 | as written, 30% over 100 objects infers 100 50s (accuracy 1/6), although 16 300s and 84 50s give exactly 30% |
| Accuracy.FiftiesClosest | ojsama.js:1310-1319 | corrected: when even all 100s are too many, no 100s and at least one 50 are inferred, within 1/(2.4 nobjects) of the percentage or, when capped, at or above it |
| Accuracy.FiftiesAtLeastOne | ojsama.js:1306-1317 | when even all 100s are too many, there is at least one non-missed object and the rounded corrected 50s count is at least 1 |
| Accuracy.FiftiesRatio | ojsama.js:1315-1319 | a rounded count of 50s, capped at the non-missed objects, is within 1/(2.4 nobjects) of the target, or above it when capped |
| Accuracy.FiftiesGap | ojsama.js:1315-1349 | with no 100s and n 50s, the accuracy misses the percentage by 250 times the gap between n and the unrounded corrected 50s count, per 300 objects |
| Accuracy.CorrectedAtThirtyPercent | ojsama.js:1288-1322 | corrected: 30% over 100 objects infers 16 300s and 84 50s, exactly 30% |
| Accuracy.CloseRatio | ojsama.js:1306-1308 | a rounded count of 100s is within half a 100 of the target |
| Performance.RawInputs | ojsama.js:1423-1468 | raw parameters are accepted exactly when the maximum combo is positive, the slider, circle and object counts are given and non-zero with enough objects, and both star values are given; defaults complete the counts and combo |
| Performance.PowMono | ojsama.js:1617 | integer powers are monotone on non-negative bases |
| Performance.Base | ojsama.js:1616-1618 | the base pp is at least 1e-5, and exactly that up to 0.0675 stars |
| Performance.BaseMonotone | ojsama.js:1616-1618 | the base pp never decreases with stars |
| Performance.LengthBonusRange | ojsama.js:1472-1479 | up to 2000 objects the bonus is 0.95 + n/5000, within [0.95, 1.35]; above, at least 1.35 |
| Performance.MissPenalty | ojsama.js:1481 | the miss penalty is positive |
| Performance.MissPenaltyDecreasing | ojsama.js:1481 | more misses never raise the penalty, which lies in (0, 1] |
| Performance.ComboBreak | ojsama.js:1482-1483 | a non-negative combo gives a non-negative factor |
| Performance.ArBonus | ojsama.js:1506-1518 | the AR bonus is at least 1 |
| Performance.ArBonusHidden | ojsama.js:1510-1518 | HD doubles only the low-AR part, and changes nothing at AR 8 or above |
| Performance.AccBonus | ojsama.js:1531 | the accuracy bonus lies in [0.5, 1], 1 at full accuracy |
| Performance.OdBonus | ojsama.js:1532-1533 | the OD bonus is at least 0.98, exactly that at OD 0 |
| Performance.FinalMultiplier | ojsama.js:1595-1598 | the final multiplier lies in [0.9576, 1.12] and is 1.12 exactly without NF and SO |
| Performance.RealAccuracy | ojsama.js:1556-1581 | score v1 recounts over circles only, v2 uses all objects, other versions are unsupported; the result stays in [0, 1] |
| Performance.PerfectRealAccuracy | ojsama.js:1558-1570 | an all-300 play has accuracy 1 under either score version |
| Performance.PpCalc | ojsama.js:1392-1607 | rejected inputs leave the state unchanged; success means a supported version and a total equal to the result; an unsupported version keeps accuracy and total pp |
| Performance.PpParts | ojsama.js:1504-1605 | aim and speed pp are always set; accuracy and total only for a supported version |
| Performance.PowNonNegative | ojsama.js:1481 | integer powers of [0, 1] stay in [0, 1] |
| Performance.AimPpNonNegative | ojsama.js:1522-1538 | aim pp is non-negative |
| Performance.AimFromNonNegative | ojsama.js:1522-1538 | the aim product of non-negative factors is non-negative |
| Performance.SpeedPpNonNegative | ojsama.js:1542-1549 | speed pp is non-negative |
| Performance.AccPpNonNegative | ojsama.js:1583-1591 | accuracy pp is non-negative |
| Performance.PpNonNegative | ojsama.js:1392-1607 | for a valid play, all four pp values are non-negative |
| Performance.PpPartsNonNegative | ojsama.js:1504-1605 | the same for the pp parts |
| Performance.StdPpv2.constructor | ojsama.js:1360-1368 | a new calculator has zero pp and no computed accuracy |
| Performance.StdPpv2.Calc | ojsama.js:1392-1607 | the calculator's new state and result are those specified |
| Performance.StdPpv2.CalcParts | ojsama.js:1504-1605 | the pp stages leave the specified state |
| Performance.AimSteps | ojsama.js:1522-1538 | the aim stage computes the specified product |
| Performance.SpeedSteps | ojsama.js:1542-1549 | the speed stage computes the specified product |
| Performance.AccSteps | ojsama.js:1583-1591 | the accuracy stage computes the specified value |
| Performance.TotalSteps | ojsama.js:1595-1604 | the total stage computes the specified blend |
| Performance.Ppv2 | ojsama.js:1624-1642 | a non-standard mode is unsupported; for standard, a fresh calculator succeeds exactly when the specification does, in the specified state |

## Left out

- `Beatmap.parse` and the `.osu` text format: the beatmap is given as a value.
- The `toString` methods and `array_toFixed`: presentation only.
- `log.warn` for unknown object types and the `console` shim: I/O.
  An object with no type bit is modelled as `Other`, at position (0, 0).
- Floating point:
  - Arithmetic is on exact reals.
  - Non-integer `Math.pow`, `Math.sqrt` and `Math.log10` are parameters, constrained only by `Sane`.
  - A 0/0 the source turns into NaN is the error `NotANumber`.
  - A division by zero the source turns into an infinity is an error, or the clamp it reaches. Three cases are errors: a zero velocity, zero repetitions, and a zero circle radius.
- Hit counts are integers. JavaScript would accept fractional counts.
- Hit-object types are one kind each. A type with several of the circle, slider and spinner bits is not modelled.
- Case mapping is ASCII only. `toLowerCase`/`toUpperCase` on other characters is not modelled.
- `std_diff` keeps `map` and `mods` from call to call. Here they are explicit parameters of each call.
- Difficulty objects are values in a sequence. The model does not capture that the source shares and mutates them in place.
- The descending sort of the window maxima is an insertion sort on a sequence. It is not the in-place `Array.prototype.sort`.
- The ppv2 map and stars path is not modelled: it calls `map.max_combo()`, which does not exist, so only the raw-parameter path is modelled.
- The unsupported-score-version `throw` is the error `UnsupportedScoreVersion`. As written, that `throw new {...}()` would itself fail with a different error.
- The export block and the mode dispatch of `diff`/`ppv2`: only their "unsupported mode" error is modelled.
- The mode dispatch of `diff`: it also caches one calculator per mode. Not modelled.
- The cache key of `_mods_cache` is modelled as the mask itself, not JavaScript's string conversion of it.
- `std_ppv2`'s unset `total` field starts at 0 here.
- Performance.LengthBonusRange: above 2000 objects the `log10` term is abstract, so only the lower bound 1.35 is stated.

## Findings

| source | as written | input that shows it | evidently intended | confidence | as-written member | corrected member |
|---|---|---|---|---|---|---|
| ojsama.js:1185-1193 | `_init_objects` resizes the array, then creates objects only for empty slots. A slot kept from an earlier call is reset, but it still wraps the earlier map's hit object. | A calculator used on a map whose first object is a circle, then on a map whose only object is a spinner: slot 0 still holds the circle. | Every slot wraps the current map's hit object at index i. | not executed | Difficulty.InitAsWritten, Difficulty.InitAsWrittenKeepsStaleObjects | Difficulty.InitCorrected, Difficulty.InitCorrectedFresh, Difficulty.StdDiff.InitObjects |
| ojsama.js:1315-1317 | When even all 100s cannot reach the percentage, the 50s are `round(-6 * (...) * 0.5)`, three times the shortfall D in objects. A 50 costs 5/6 of an object, so the count that reaches the percentage is 1.2 D. Three times D is always past the cap `max300`, so every non-missed object becomes a 50. | 30% over 100 objects, no misses: D = 70, so 100s would need 105 > 100 and 50s are min(100, 210) = 100. The accuracy is 1/6, not 0.3. | 50s = round(1.2 D), capped at `max300`: here 16 300s and 84 50s, exactly 0.3. | not executed | Accuracy.InferFromPercentAsWritten, Accuracy.FiftiesBelowAllHundreds, Accuracy.AllFiftiesAtThirtyPercent | Accuracy.InferFromPercent, Accuracy.FiftiesClosest, Accuracy.CorrectedAtThirtyPercent |
