# Jootafit shoe-fit wizard: a verified model

Jootafit is a browser wizard that recommends a UK shoe size and fit. The
user declares their usual size, uploads a photo of their foot, and says how
their current shoes feel in four zones (toes, sides, midfoot, heel). The
wizard answers with a size, a width (`Normal` or `Wide`) and an explanation.
This Dafny project models the two computations behind those answers. Both
are in `app.js`:

- The **measurement extractor** (`extractFootMeasurements`, `isNearFoot`,
  `getWidthAtY`, and the ratio block of `analyzeFootImage`) works on the
  photo's RGBA grid. It converts the grid to grayscale and classifies each
  pixel as foot or background. It then bounds the foot with a box, falling
  back to a central box when too few pixels count as foot. It measures the
  foot's width along three scan-lines, estimates the two toe lengths,
  substitutes fallbacks for zero values, and forms four shape ratios.
- The **recommendation engine** (`calculateRecommendation`) is an ordered
  series of guarded rules. They move the size by half a size, switch the
  width to Wide and collect explanation messages. The result is then capped
  at half a size, rounded to half sizes and clamped to [3, 15].

Around these sit the wizard's state handlers, modelled as a class. They
cover the size check, keeping and dropping the photo, filling the comfort
map one zone at a time, the results step and start-over.

Modules, in dependency order:

- `Shape` (`shape.dfy`) defines ratios and the ratio record.
- `Grid` (`grid.dfy`) covers grayscale, the pixel mask and the neighbourhood search.
- `FootBox` (`box.dfy`) covers the bounding-box scan and its fallback.
- `Scan` (`scan.dfy`) covers the scan-line width.
- `Measurements` (`measurements.dfy`) covers the extractor, the fallbacks and the ratios.
- `Recommendation` (`recommendation.dfy`) is the engine.
- `Wizard` (`wizard.dfy`) holds the application state.

The loops of the source are Dafny loops:

- the grayscale push;
- the double loop over the grid;
- `isNearFoot`'s early-return double loop;
- the two scans of `getWidthAtY`.

Each loop's method is proved equal to a specification function. The
properties are proved as lemmas about those functions. The engine's
accumulator is threaded through one method per rule group, in source order.
Its result is proved equal to a closed-form reference definition
(`ExpectedSize`, `ExpectedWidth`, `ExpectedNotes`), which decides each rule
from the inputs alone.

Numbers are exact reals, and the code keeps JavaScript's semantics
explicitly:

- `Math.round(x * 2) / 2` rounds halves towards +infinity.
- `v || fallback` treats 0 as falsy.
- Reading a grayscale array at a non-integer index yields `undefined`,
  which is never below the threshold. This can happen with the fallback
  box's fractional bounds.
- In the ratio block of `analyzeFootImage` (app.js:115-120) a division by
  zero yields NaN. `Measurements.DivisionsAreZeroOverZero` proves that there
  a divisor is zero only when its dividend is zero too, so NaN is the only
  non-number a ratio can be. The extractor's other division,
  `forefootWidth / footLength` (app.js:198), gives Infinity on a one-row box
  of positive width. Its product with the zero big-toe length is then NaN,
  which the `||` fallback treats like 0; `Measurements.LittleToe` writes 0.
- Comparisons with NaN are false.

Several details of the code are easy to misread, and the model follows the
code in each of them:

- The scan-lines look for pixels below the threshold, not for pixels of the
  foot mask (app.js:237, 246).
- A scan-line with no dark pixel strictly inside the box yields the full
  box width (app.js:231-232, 252; `NoDarkGivesBoxWidth`). The 0.75, 0.55
  and 0.50 width fallbacks therefore fire only on a box of zero width
  (app.js:203-205; `ZeroWidthBox`).
- Coinciding edges give 0.6 × the box width (app.js:252;
  `CoincidingEdgesFallBack`).
- The fallbacks for the toe lengths are proportions of the raw foot length,
  not of its fallback (app.js:206-207). So on a one-row foot mask both toe
  lengths stay 0, and the toe taper index is 0/0, which is NaN
  (`FlatBoxHasNoTaperIndex`).
- The recommended size is guaranteed to stay within half a size of the
  declared size only when the declared size is a whole number of half sizes
  (`ThreeOutcomes`). Other declared sizes can move up to three quarters of
  a size, even with no strong indicator: half a size from a rule and a quarter from the
  rounding. The cap (app.js:398-410) runs before the rounding (app.js:413)
  and only sees the half-size move. For example, 9.25 with tight toes on a
  broad forefoot that is already Wide becomes 10
  (`QuarterSizeMovesThreeQuarters`). `StaysNearUsual` proves that 0.75 is
  the bound for every declared size in [3, 15].

## Model

| member | source | states |
|---|---|---|
| Shape.Div | app.js:115-120 | A division is a number exactly when the divisor is nonzero, and then number × divisor = dividend; 0 divisor gives NaN |
| Grid.Grayscale | app.js:133-140 | The pushed grayscale array holds, for each pixel, the mean of its three colour channels (alpha ignored), one value per four bytes |
| Grid.IsNearFoot | app.js:211-227 | The double loop returns true exactly when some in-bounds pixel within Chebyshev distance 5 is below the threshold 128 |
| Grid.DarkAtIffDarkSum | app.js:138-144 | A pixel's gray is below 128 exactly when its channel sum r+g+b is below 384 |
| Grid.FootIffChannelSums | app.js:157 | A pixel is foot iff r+g+b < 384, or r+g+b > 384 and an in-bounds pixel within distance 5 has sum < 384; a sum of exactly 384 is never foot |
| FootBox.ClassifyPixel | app.js:152-157 | The short-circuit test of one pixel equals the foot mask: dark, or strictly brighter and near a dark pixel |
| FootBox.FindFootBox | app.js:147-175 | The count is the number of foot pixels; if fewer than a tenth of the pixels are foot the box is (0.1w, 0.9w, 0.1h, 0.9h), otherwise it has whole bounds, contains every foot pixel and each bound is attained by one; bounds lie in the grid |
| Scan.StepsMeaning | app.js:235 | The left scan visits step k exactly when minX + k < maxX (and symmetrically for the right scan) |
| Scan.FirstLeftHit | app.js:235-241 | The first left-scan step that reads a dark pixel, or the step count when none does; no earlier step hits |
| Scan.FirstRightHit | app.js:244-250 | The first right-scan step that reads a dark pixel, or the step count when none does; no earlier step hits |
| Scan.WidthAtY | app.js:229-253 | With minX ≤ maxX the scan-line width lies in [0, maxX − minX] |
| Scan.GetWidthAtY | app.js:229-253 | The two breaking scan loops return the right edge minus the left edge, or 60% of the box width when that difference is 0 |
| Scan.EdgesOrdered | app.js:231-250 | Both edges lie in [minX, maxX] and the right edge is never left of the left edge |
| Scan.NoDarkGivesBoxWidth | app.js:229-253 | A scan-line with no dark pixel strictly between minX and maxX measures the full box width maxX − minX; a dark pixel on either bound does not change that |
| Scan.CoincidingEdgesFallBack | app.js:252 | Coinciding edges make the width fall back to 0.6 × (maxX − minX) |
| Scan.ZeroWidthBox | app.js:229-253 | On an ordered box a scan-line measures 0 exactly when the box has zero width |
| Measurements.ZeroMeasurementsFallBack | app.js:201-208 | Each returned measurement is its raw value when nonzero, else its fallback (0.85h, 0.75, 0.55, 0.50 of the box width, 0.22 and 0.15 of the raw foot length) |
| Measurements.RawFromPlausible | app.js:194-208 | Raw widths within [0, box width] give, after the fallbacks, a positive foot length, nonnegative values, zero numerators under zero divisors and a little toe at least half the big toe |
| Measurements.RawWidthsWithinBox | app.js:181-192 | The three scan-line widths at 30%, 50% and 80% of the box height lie in [0, box width] |
| Measurements.MeasureBoxPlausible | app.js:177-208 | For any ordered box the returned record is plausible and its widths do not exceed the box width |
| Measurements.MeasureFoot | app.js:177-208 | The scan-lines, toe estimates and fallbacks compute exactly the record specified for the box |
| Measurements.ExtractFootMeasurements | app.js:123-209 | The record is the one measured on the box the scan settles on (fallback or tight bounding box) and is plausible |
| Measurements.DivisionsAreZeroOverZero | app.js:115-120 | On a returned record the forefoot ratio is a number ≥ 0; each other ratio is NaN only for 0/0, and otherwise ≥ 0 (the taper index ≥ 1/2) |
| Measurements.TaperIndexFromForefoot | app.js:194-207 | On a box of nonzero height the toe taper index is 0.5 + 0.3 × raw forefoot width / foot length: it is computed from the forefoot, not the toes |
| Measurements.TaperOfRaw | app.js:196-207 | For a positive foot length the little-over-big toe ratio of the fallback record is 0.5 + 0.3 × forefoot width / foot length |
| Measurements.FlatBoxHasNoTaperIndex | app.js:201-207 | A box of zero height gets foot length 0.85h but both toe lengths stay 0, so the toe taper index is NaN |
| Recommendation.RoundHalf | app.js:413 | `Math.round(x*2)/2` is a whole number of half sizes within (x − 1/4, x + 1/4] |
| Recommendation.CalculateRecommendation | app.js:339-423 | The engine's size, width and explanation equal the reference definitions; the size lies in [3, 15] and is a multiple of 0.5 |
| Recommendation.WidthRules | app.js:351-362 | Width becomes Wide for a broad forefoot (with its note), else for tight sides (with its note) |
| Recommendation.ToeRules | app.js:364-380 | Tight toes on a tapered foot add half a size; on a square or broad foot they switch Normal to Wide, or add half a size if already Wide; notes in that order |
| Recommendation.HeelRules | app.js:382-390 | A slipping heel adds lacing advice when the heel is narrow, else takes half a size off (not below 3) when toes or sides are loose |
| Recommendation.FinishSize | app.js:397-416 | The cap, the rounding to half sizes and the clamp to [3, 15], in that order |
| Recommendation.SizeInRange | app.js:412-416 | Every recommended size lies in [3, 15] and is a whole number of half sizes |
| Recommendation.RoundHalfKeepsHalfSteps | app.js:413 | Rounding leaves a whole number of half sizes unchanged |
| Recommendation.CapIsDeadCode | app.js:397-410 | For a declared size in [3, 15] the rules move the size by at most 0.5, so the cap never changes it |
| Recommendation.ThreeOutcomes | app.js:365-416 | For a declared half-step size in [3, 15] the result is usual − 0.5, usual or usual + 0.5; up only with tight toes and a rule adding half a size, down only with a slipping heel and a rule taking it off |
| Recommendation.WidthIsWideWhen | app.js:342-379 | Wide whenever the forefoot is broad or the sides are tight; otherwise Wide exactly when toes are tight on a square, non-tapered foot |
| Recommendation.NarrowHeelSlipKeepsSize | app.js:383-385 | A slipping narrow heel changes neither size nor width and adds the heel-lock note |
| Recommendation.MidfootTightOnlyNotes | app.js:392-395 | Midfoot tightness changes neither size nor width and appends its note last |
| Recommendation.TaperGapIsNoOp | app.js:365-380 | Tight toes on a foot neither tapered, square nor broad (taper in [0.65, 0.75] or NaN) change nothing |
| Recommendation.JoinStartsWithFirst | app.js:421 | The joined explanation starts with the first message's first character |
| Recommendation.ExplanationIsDefaultIffSilent | app.js:343-421 | The explanation is the default sentence exactly when no rule pushed a message; otherwise the messages joined by single spaces |
| Recommendation.Scenarios | app.js:339-423 | Five example inputs give the stated size, width and messages |
| Wizard.Fill | app.js:298-301 | The zones answered after a series of answers are the earlier ones plus each answered zone |
| Wizard.AllFilledIffFourZones | app.js:308 | The `every` check over the four zones is the same as every zone having an answer |
| Wizard.AnalyzeFootImage | app.js:104-120 | The stored ratios are those of the measurements read off the photo's box; forefoot ratio a number ≥ 0, taper index ≥ 1/2 when a number |
| Wizard.AppState.constructor | app.js:1-13 | The state starts with every entry null and no zone open |
| Wizard.AppState.SubmitSize | app.js:34-43 | A size is stored exactly when it is a number in [3, 15]; otherwise nothing changes; the photo, its ratios and the analysed box are unchanged, so ratios that matched the photo still do |
| Wizard.AppState.LoadPhoto | app.js:91-97 | The decoded image is stored; every other field, the analysed box included, is unchanged |
| Wizard.AppState.RetakePhoto | app.js:72-78 | The photo is dropped; every other field, the analysed box included, is unchanged |
| Wizard.AppState.PhotoContinue | app.js:80-85 | With a photo, the ratios of its measurements are stored; without one nothing changes |
| Wizard.AppState.SelectZone | app.js:266-289 | Opening a zone makes it current and clears the selected button; the photo, its ratios and the analysed box are unchanged, so ratios that matched the photo still do |
| Wizard.AppState.PickFeel | app.js:291-296 | A comfort button becomes the only selected one; the photo, its ratios and the analysed box are unchanged, so ratios that matched the photo still do |
| Wizard.AppState.ZoneDone | app.js:298-313 | With a selected button and an open zone, the answer is recorded for that zone and the zone closed; the continue button appears exactly when all four zones are answered; otherwise nothing changes; the photo, its ratios and the analysed box are unchanged, so ratios that matched the photo still do |
| Wizard.AppState.Recommend | app.js:332-341 | The results are the engine's output on the stored size, ratios and answers: in [3, 15], a half step, within 0.75 of the declared size |
| Wizard.AppState.StartOver | app.js:432-443 | Size, photo and ratios become null and every answer is cleared; the open zone and selected button are left as they are |
| Wizard.SizeAcceptedIffInRange | app.js:36 | `size && size >= 3 && size <= 15` accepts exactly the numbers in [3, 15] |
| Wizard.FilledIffEveryZoneAnswered | app.js:298-313 | After a start-over, the continue button can appear exactly when each zone has been answered at least once |
| Wizard.LastAnswerWins | app.js:301 | A later answer for a zone overwrites the earlier one |
| Wizard.StaysNearUsual | app.js:365-416 | For a declared size in [3, 15] the recommended size is within 0.75 of it |
| Wizard.QuarterSizeMovesThreeQuarters | app.js:365-416 | A declared size of 9.25 with tight toes on a broad forefoot that is already Wide, and no strong indicator, becomes 10: three quarters of a size away, so the bound of StaysNearUsual is reached |

## Left out

- The DOM, event wiring, `showStep`, `setTimeout`, `alert`, `displayResults`, the summary HTML in `updateComfortSummary` and the UI half of start-over are page plumbing. The handlers are modelled by the state they change.
- FileReader, Image decoding, `drawImage` and `getImageData` are browser APIs. The photo is a parameter, a row-major RGBA byte sequence with at least one pixel. A zero-size canvas makes `getImageData` throw, so `Decoded` requires a width and height of at least 1.
- `gender` and the empty `mediaDevices` check are left out: the gender is stored but never read, and the check does nothing.
- IEEE-754 rounding and infinities are left out. All arithmetic is exact over the reals. NaN is kept as `Ratio.NaN`, since it is the only non-number a ratio can be; the one Infinity inside the extractor is absorbed as described above.
- `parseFloat` is a parameter: `SubmitSize` takes its result as `Option<real>`, with `None` for NaN or ±Infinity, both of which the size check at app.js:36 rejects.
- The comfort values are one enumeration (`Feel`) for all zones. The HTML that lists each zone's buttons (index.html) is not part of this model, so the model allows any value in any zone, as `app.js` itself does.
- Recommendation.CalculateRecommendation: the source's single function body is split into one method per rule group (width, toes, heel, finish). The order and the guards are unchanged.
- Measurements.LittleToe: the source computes `taperEstimate` and the little toe as two constants. The model folds them into one expression. With a zero foot length JavaScript gives NaN, which is falsy; the model writes 0, which the `||` fallback treats the same way.
- Wizard.AppState.Recommend: requires the size, the ratios and all four answers to be present. The page shows the results button only once all zones are answered, after the size and photo steps. The source itself does not check.
- `updateComfortSummary` only builds HTML and is left out.
