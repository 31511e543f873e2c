# ROI calculator engine for 3D scanning versus traditional surveying

This project is a Dafny model of the calculation engine inside the ROI calculator
component (`src/App.js`). The calculator compares a traditional survey crew with a
3D-scanning workflow that needs a scanner bought up front. The model lifts the
component's arithmetic out of its React state into pure functions over `real`:

- `Inputs` (`inputs.dfy`) holds the two input records and the scanner price list.
  It also holds the two effects that keep the scanning record consistent: the scan,
  processing and deliverable hours are fixed fractions of the traditional hours,
  and the investment is the list price of the selected scanner.
- `CostProjection` (`projection.dfy`) builds the monthly costs of both workflows and
  the two 36-month cumulative cost series. It finds the breakeven month by
  interpolating linearly inside the first month pair where the traditional line
  climbs above the scanning line. When no pair brackets the crossing, it falls back
  to a theoretical breakeven.
- `RoiMetrics` (`metrics.dfy`) computes the ROI slide's figures: time-efficiency
  gain, annual ROI, five-year ROI, monthly time savings and rework savings. It
  gathers them with the projection into one `RoiData` record.
- `Benefits` (`benefits.dfy`) covers the benefit slide. It computes five
  independent benefit estimates, the per-benefit inclusion checkboxes, their
  conditional total, and the enhanced ROI and payback figures.
- `PersonnelField` (`personnel.dfy`) models the traditional cost exactly as the
  source writes it, with a small model of JavaScript numbers (finite or NaN). See
  Findings.
- `RealArith` (`arith.dfy`) and `Wrappers` (`wrappers.dfy`) are helpers: sign facts
  about real products, and an `Option` type.

Three behaviours of the code worth noting:

- The fallback breakeven is `0` when there is no positive monthly saving. It is
  not an absent value.
- The interpolation needs no guard against a zero denominator. A bracket
  (`t1 < s1` and `t2 > s2`) makes `(t2 - t1) - (s2 - s1)` strictly positive, and
  `Interpolate` divides under exactly that precondition.
- The enhanced payback divides without a guard. The model returns `None` only when
  the denominator is zero, which is where the source gets a non-finite number. A
  negative denominator gives a negative figure, as in the source.

The central result is the contract of `CostProjection.Breakeven`. Both cumulative series
are straight lines, so the interpolated breakeven and the theoretical fallback
always agree. In every case the breakeven month is the investment divided by the
monthly saving when that saving is positive, and 0 otherwise.

## Model

| member | source | states |
|---|---|---|
| `Inputs.ApplyModelPrice` | src/App.js:112-121 | after a model change the investment is the selected scanner's list price, it is positive, and no other field of the scanning record changes |
| `Inputs.DeriveScanningHours` | src/App.js:124-134 | the scan time is a third of the field time, processing is a quarter of the scan time, deliverables are a tenth of the traditional deliverables; the scanning total is (25·field + 6·deliverables)/60; model, operators and investment are kept |
| `Inputs.DerivedHoursBound` | src/App.js:124-134 | with derived hours and non-negative traditional hours, a scanned project takes at most 5/12 of the traditional time, and strictly less when the traditional project takes any time |
| `CostProjection.TraditionalMonthlyCost` | src/App.js:286-293 | the traditional monthly cost is non-negative for valid inputs and a non-negative headcount |
| `CostProjection.ScanningMonthlyCost` | src/App.js:296-305 | the scanning monthly cost is non-negative for valid inputs, non-negative hours and a non-negative operator count |
| `CostProjection.CumulativeSeries` | src/App.js:314-331 | the series has exactly n entries, and entry i (0-based) is monthly·(i+1) + the up-front outlay |
| `CostProjection.SeriesNonDecreasing` | src/App.js:318-331 | with a non-negative monthly cost each series is non-decreasing, and strictly increasing when the monthly cost is positive |
| `CostProjection.FirstBracket` | src/App.js:334-340 | returns the first index from `from` on where the traditional cost is below the scanning cost and above it a month later; when it returns nothing, no index brackets the crossing |
| `CostProjection.Interpolate` | src/App.js:341-350 | under the bracket condition the result lies strictly between months i+1 and i+2, and it is the point where the two interpolating lines meet |
| `CostProjection.TheoreticalBreakeven` | src/App.js:355-361 | with a positive monthly saving, the result times the saving is the investment; otherwise it is 0 |
| `CostProjection.BracketNeedsSavings` | src/App.js:336-339 | a bracket in the projection can only occur when the traditional monthly cost is strictly higher |
| `CostProjection.InterpolatedBreakeven` | src/App.js:341-350 | inside a bracket at index i the interpolated crossing lies strictly between months i+1 and i+2, the traditional monthly cost is strictly higher, and crossing × monthly saving = investment (the interpolation is exact) |
| `CostProjection.Breakeven` | src/App.js:333-361 | on both branches, breakeven × (traditional − scanning monthly cost) = investment when that saving is positive, and breakeven = 0 otherwise |
| `CostProjection.BreakevenInsideBracket` | src/App.js:334-352 | when the traditional total is below the scanning total at the end of month i+1 and above it at the end of month i+2, the breakeven lies strictly between those two months |
| `CostProjection.BreakevenIsQuotient` | src/App.js:333-361 | with a positive monthly saving the breakeven equals investment / saving, on both the interpolation and the fallback branch |
| `CostProjection.BreakevenNonNegative` | src/App.js:355-361 | for a non-negative investment the breakeven is never negative |
| `CostProjection.Project` | src/App.js:314-361 | both series have 36 entries with the stated cumulative values; the breakeven is investment / monthly saving when that saving is positive and 0 otherwise, and non-negative for a non-negative investment |
| `RoiMetrics.TimeEfficiencyGain` | src/App.js:310-312 | gain × traditional hours = (traditional − scanning hours) × 100; the gain is 100 exactly when scanning takes no time, at most 100 for non-negative scanning hours, and non-negative exactly when scanning is no slower |
| `RoiMetrics.AnnualRoi` | src/App.js:364-367 | ROI × investment = 1200 × monthly saving; with a positive investment the ROI is positive exactly when scanning is cheaper per month |
| `RoiMetrics.FiveYearRoi` | src/App.js:370-375 | five-year ROI = 5 × annual ROI − 100; it is positive exactly when 60 months of savings exceed the investment |
| `RoiMetrics.MonthlyTimeSavings` | src/App.js:378-382 | the savings are (traditional − scanning hours per project) × monthly projects; with projects each month they are positive exactly when a scanned project is quicker, and non-negative when scanning is no slower |
| `RoiMetrics.MonthlyReworkHours` | src/App.js:385-387 | for valid inputs the rework hours lie between 0 and the monthly traditional hours |
| `RoiMetrics.ReworkSavings` | src/App.js:394-395 | the rework savings are exactly half the traditional monthly rework hours, and at most half the monthly hours for valid inputs |
| `RoiMetrics.ReworkCostSavings` | src/App.js:396-399 | the rework cost savings are half the monthly rework hours priced at the rate × surveyor count, and non-negative for valid inputs |
| `RoiMetrics.RoiFromMonthlyCosts` | src/App.js:363-424 | for given monthly costs: series entry i is the traditional cost × (i+1) and the scanning cost × (i+1) + investment for all 36 months; ROI × investment = 1200 × monthly saving, so it is positive exactly when scanning is cheaper; five-year ROI = 5 × ROI − 100; breakeven = investment / monthly saving when that saving is positive, else 0, never negative; gain × traditional hours = hours saved × 100; time savings = hours saved per project × monthly projects; rework savings = half the monthly rework hours; the rework percentage and rework cost savings are the ROI slide's |
| `RoiMetrics.CalculateRoi` | src/App.js:284-428 | the slide's record is the record for the monthly costs priced with the surveyor count (traditional) and the operator count (scanning), so every value stated for that record holds; in particular breakeven = investment / monthly saving when scanning is cheaper per month, else 0, never negative; ROI positive exactly when scanning is cheaper; five-year ROI = 5 × ROI − 100 |
| `RoiMetrics.DerivedTimeEfficiencyGain` | src/App.js:310-312 | with derived scanning hours and valid positive traditional hours, the gain is between 700/12 (about 58.3) and 100 percent |
| `RoiMetrics.DefaultInputsExample` | src/App.js:43-60 | on the form's defaults, with the surveyor count as the traditional headcount: scanning 14 h per project, monthly costs 66560 and 7280, gain 78.125 %, ROI 1185.6 %, breakeven 60000/59280 months, 400 h saved a month, 38.4 rework hours saved |
| `Benefits.ToggleBenefit` | src/App.js:184-191 | the handler flips the named benefit's flag and leaves the other four unchanged |
| `Benefits.Round` | src/App.js:478 | the JavaScript rounding: the result is within half a unit of x, with halves rounded up |
| `Benefits.AnnualReworkHours` | src/App.js:440-441 | the annual rework hours are twelve times the monthly rework hours of the ROI slide |
| `Benefits.AnnualReworkCost` | src/App.js:442-446 | the annual rework cost is 24 times the monthly rework cost savings of the ROI slide (a year of savings at its fixed 50 % reduction, doubled), and non-negative for valid inputs |
| `Benefits.ReworkCostSaved` | src/App.js:448-451 | the rework cost saved is the selected percentage of the annual rework cost, so between 0 and the whole rework cost for valid inputs and a reduction between 0 and 100 % |
| `Benefits.DataArchivalValue` | src/App.js:454-459 | the archival value is a quarter of the annual labor cost |
| `Benefits.ChangeManagementSavings` | src/App.js:461-472 | the change-management savings are a twentieth of the annual labor cost |
| `Benefits.FabricationProjects` | src/App.js:476-479 | the count is at least 1 and at least the rounded 30 % of annual projects; it is exactly 1 when 30 % of the annual projects is below 1.5, and equal to the rounded figure once that reaches 0.5 |
| `Benefits.FabricationSavings` | src/App.js:476-483 | the savings are 5250 per prefabrication project, so at least 5250 |
| `Benefits.ConcreteFloorProjects` | src/App.js:487-490 | the count is at least 1 and at least the rounded 20 % of annual projects; it is exactly 1 when 20 % of the annual projects is below 1.5, and equal to the rounded figure once that reaches 0.5 |
| `Benefits.ConcreteFloorSavings` | src/App.js:487-495 | the savings are 1700 per floor analysis, so at least 1700 |
| `Benefits.LaborSavings` | src/App.js:497-508 | the labor savings recomputed here equal twelve months of the ROI slide's monthly time savings at the rate × surveyor count |
| `Benefits.CalculateBenefitAnalysis` | src/App.js:431-551 | rework hours and cost agree with the ROI slide (12× the hours, 24× the cost savings); hours saved and cost saved are the selected percentage of the rework hours and rework cost; archival is a quarter and change management a twentieth of the annual labor cost; fabrication savings are 5250 per prefabrication project and floor savings 1700 per floor analysis (so at least 5250 and 1700); labor savings are the recomputed annual time savings |
| `Benefits.EstimatesNonNegative` | src/App.js:431-495 | for valid inputs and a non-negative reduction every benefit estimate is non-negative |
| `Benefits.TotalAdditionalBenefits` | src/App.js:564-588 | the running total of the checked estimates equals the fold over all five keys that adds each enabled estimate |
| `Benefits.IncludedSumToggle` | src/App.js:564-588 | over distinct keys, toggling one key changes the fold by exactly its estimate (added or removed) when the key is present, and not at all otherwise |
| `Benefits.ToggleChangesTotalByOneEstimate` | src/App.js:184-191 | toggling one checkbox changes the total by that benefit's estimate only: added when it becomes checked, removed when it becomes unchecked |
| `Benefits.TotalOfExtremes` | src/App.js:564-588 | with every box cleared the total is 0; with every box checked it is the sum of all five estimates |
| `Benefits.IncludedSumMonotone` | src/App.js:564-588 | with non-negative estimates, checking more boxes never lowers the fold, which stays non-negative |
| `Benefits.TotalBetweenNoneAndAll` | src/App.js:564-588 | with non-negative estimates the total lies between 0 and the all-checked total |
| `Benefits.EnhancedRoi` | src/App.js:1358-1363 | (enhanced − annual ROI) × investment = included total × 100, so the enhanced ROI is at least (exactly) the annual ROI when the included total is non-negative (zero) |
| `Benefits.EnhancedPayback` | src/App.js:1380-1385 | there is no figure exactly when monthly saving + included total / 12 is zero; otherwise payback × that denominator = investment |
| `Benefits.AllDisabledEnhancedRoiIsAnnualRoi` | src/App.js:1358-1363 | with every box cleared the enhanced ROI equals the annual ROI |
| `Benefits.AllDisabledPaybackIsBreakeven` | src/App.js:1380-1385 | with every box cleared and a positive monthly saving, the enhanced payback is the projection's breakeven month |
| `Benefits.IncludedBenefitsShortenPayback` | src/App.js:1380-1385 | with a positive monthly saving and a non-negative investment and included total, the payback exists, is non-negative, and is no later than the breakeven month |
| `PersonnelField.TraditionalField` | src/App.js:43-50 | property access yields a value exactly for the six fields of the traditional record, so the personnel name yields nothing |
| `PersonnelField.TraditionalMonthlyCostAsWritten` | src/App.js:286-293 | as written, the traditional monthly cost is NaN for every input |
| `PersonnelField.JsSeries` | src/App.js:318-331 | the JavaScript-number series has n entries, and entry i is monthly·(i+1) + outlay in NaN-propagating arithmetic |
| `PersonnelField.JsFirstBracket` | src/App.js:334-351 | the breakeven search over JavaScript numbers returns the first bracketing index at or after its start, or proves that none exists |
| `PersonnelField.JsBreakeven` | src/App.js:333-361 | the search, the unguarded interpolation and the fallback over JavaScript numbers give a finite breakeven whenever both monthly costs are finite, since a bracket makes the interpolation's divisor positive |
| `PersonnelField.AnnualRoiAsWritten` | src/App.js:364-367 | as written, the annual ROI is NaN for every input, because the traditional cost it subtracts from is NaN |
| `PersonnelField.AsWrittenFiguresAreDegenerate` | src/App.js:333-367 | as written (`BreakevenAsWritten`, `AnnualRoiAsWritten`), the breakeven is 0 and the annual ROI is NaN for every input |
| `PersonnelField.DefaultInputsDiscrepancy` | src/App.js:286-293 | on the form's defaults the source reports a breakeven of 0 months, while with the surveyor count the breakeven is 60000/59280 months, just over one |

## Findings

| source | as written | input that shows it | evidently intended | confidence | as-written member | corrected member |
|---|---|---|---|---|---|---|
| src/App.js:286-293 | the traditional per-project cost multiplies by `traditionalInfo.numberOfPersonnel`, a field the traditional state record (lines 43-50) does not have; it reads as `undefined`, so the traditional monthly cost is NaN, the breakeven search finds no bracket, the fallback reports 0, and the ROI figures are NaN | the form defaults (2 surveyors, 65/h, 24 + 40 h, 8 projects a month, 60000 scanner): breakeven 0 months instead of 60000/59280 | multiply by `surveyorCount`, as the rework and benefit figures of the same component do (lines 388-399, 442-446) | high; not executed | `PersonnelField.AsWrittenFiguresAreDegenerate` | `RoiMetrics.CalculateRoi` |

## Left out

- React state, the `useEffect` hooks' scheduling and the slide rendering are left out. They are user-interface plumbing. The two effects that change data are modelled as `ApplyModelPrice` and `DeriveScanningHours`.
- `sendDataToCRM` is left out. It sends a request through an image URL with JSON and URI encoding and a date stamp, which is network I/O.
- Presentation is left out: `formatCurrency` (`Intl.NumberFormat`), `toFixed`, the month labels, the 24-month chart slice and the chart data arrays (error, quality and savings breakdown). So is the `Math.round` applied on screen to the ROI, breakeven, enhanced ROI and enhanced payback.
- Benefits.EnhancedRoi: states the unrounded figure. The slide shows it through `Math.round` (modelled as `Round` where it feeds a calculation).
- Benefits.EnhancedPayback: states the unrounded figure. The slide shows it through `Math.round`.
- Form handling is left out: `parseFloat(value) || 0`, `parseInt` of the slider, `validateCustomerInfo`, and the customer record. Every input is taken as an already-coerced real. The 40-80 % slider bounds are not imposed on `selectedReduction`.
- The scanner selector's string key (`"X9 Core"`, `"X9 Premium"`, src/App.js:788-796) becomes the `ScannerModel` enumeration. The operator and hour fields of the scanning form are read-only and derived, so no other scanning entry is coerced.
- The unused `scanningMonthlyTotalCost` and the unused `traditionalReworkCost` are left out.
- IEEE-754 doubles are left out. Values are exact reals. Division by the traditional hours and by the investment is a precondition (`TimeEfficiencyGain`, `AnnualRoi`, `FiveYearRoi`, `EnhancedRoi`, `CalculateRoi`), where the source would produce NaN or Infinity. The price list only holds positive prices. NaN appears only in `PersonnelField`, which models the code as written.
- The scanner model is an enumeration of the two models the selector offers, so the price lookup cannot miss.
