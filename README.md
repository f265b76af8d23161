# gestion: inventory policy, time-series pipeline and parameter-sheet parser in Dafny

The modelled code belongs to a small inventory-management web application. It has three parts.

- **Inventory (R, Q) policy engine.** This is `src/lib/calculations/inventory-calculations.ts`, and its near-copy `src/lib/inventory-calculations.ts` used by the dashboard page. It covers:
  - the economic order quantity Q = sqrt(2DS/H);
  - the reorder point R = mu_d·L + Z·sigma_d·sqrt(L);
  - the Z-score lookup, keyed by the text of the service level;
  - the rounded, non-negative daily demand;
  - the day-by-day stock simulation. Stock starts at one lot Q. Each day it loses the demand, counts and clamps any shortfall, reorders at once when it is at most R, and records the closing level.
- **Time-series pipeline.** This is `src/lib/calculations/time-series-analysis.ts`. It covers:
  - the 70/30 training/testing split;
  - simple exponential smoothing with alpha = 0.2, a flat forecast tail and symmetric 1.96·RMSE bounds;
  - MAE/RMSE/MAPE;
  - the residual vector, mean and variance;
  - descriptive statistics;
  - the least-squares trend decision;
  - the autocorrelation peak search for seasonality;
  - the ETS model-label table.
- **Parameter-sheet parser.** This is the row loop of `readExcelFile` in `src/components/excel-uploader.tsx`. Rows `[name, value]` fill a partial parameter record through an alias switch on the trimmed, lower-cased name. A service level above 1 is read as a percentage. An empty record is an error.

Modules:

- `Wrappers`: `Option` and `Result`.
- `RealMath`:
  - the square-root contract `IsSqrt`;
  - sums, means, squared-deviation sums, minimum and maximum of a sequence, with their lemmas.
- `InventoryCalculations`: the first inventory file.
- `DashboardInventory`: the second inventory file. Its EOQ, reorder point and simulation are each proved equal to their counterparts in `InventoryCalculations`. `DashboardDefaults` evaluates the formulas at the dashboard page's starting parameters.
- `TimeSeriesAnalysis`: the time-series file.
- `ExcelUploader`: the parser loop.

Modelling choices:

- Arithmetic is exact `real`.
- `Math.sqrt` is a function parameter `sqrt`. Its only stated property is `IsSqrt(sqrt)`: for x >= 0, sqrt(x) >= 0 and sqrt(x)·sqrt(x) = x.
- `Number.prototype.toString`, which turns the service level into the Z-score key, is a function parameter `toString`. Its stated properties are `IsNumberText(toString)`: k/100 prints as the shortest decimal `HundredthsText(k)`, and no number printed without an exponent (the plain decimal form, not "1.2e-10") has a trailing zero after its decimal point.
- Loops that update variables are `method`s with loop invariants. Each is proved equal to a function that specifies it (`SimulateInventory` against `Simulate`, `ParseParamRows` against `ParseResult`, and so on). The properties are proved about those functions.

## Model

| member | source | states |
|---|---|---|
| RealMath.Sum | src/lib/calculations/time-series-analysis.ts:96-97 | the `reduce` sum, left to right from 0; bounded by `SumBetween` |
| RealMath.Mean | src/lib/calculations/time-series-analysis.ts:172 | the sum divided by the count; lies between min and max by `MeanBetweenMinMax` |
| RealMath.MinOf | src/lib/calculations/time-series-analysis.ts:178 | `Math.min(...data)` is an element of the data and at most every element |
| RealMath.MaxOf | src/lib/calculations/time-series-analysis.ts:179 | `Math.max(...data)` is an element of the data and at least every element |
| RealMath.SumBetween | src/lib/calculations/time-series-analysis.ts:172 | a sum of n terms each within [lo, hi] lies within [n·lo, n·hi] |
| RealMath.MeanBetweenMinMax | src/lib/calculations/time-series-analysis.ts:172-179 | the mean lies between the minimum and the maximum |
| RealMath.SqDevSumZeroIff | src/lib/calculations/time-series-analysis.ts:182-186 | the squared-deviation sum is 0 exactly when every element equals the centre |
| RealMath.SqDevSum | src/lib/calculations/time-series-analysis.ts:182-186 | the running sum of squared deviations from a centre (`sumSquaredDiff`, and the same sums at :220 and :272-278) is never negative |
| RealMath.Abs | src/lib/calculations/time-series-analysis.ts:242 | `Math.abs(x)` is non-negative and is either x or -x |
| InventoryCalculations.CalculateEOQ | src/lib/calculations/inventory-calculations.ts:30-32 | Q is non-negative and Q·Q = 2DS/H |
| InventoryCalculations.EOQUnique | src/lib/calculations/inventory-calculations.ts:30-32 | any non-negative q with q·q = 2DS/H is the EOQ, so the EOQ is determined by D, S and H alone |
| InventoryCalculations.EOQMonotoneInDemand | src/lib/calculations/inventory-calculations.ts:30-32 | with S >= 0 and H > 0, a larger annual demand never gives a smaller EOQ |
| InventoryCalculations.CalculateReorderPoint | src/lib/calculations/inventory-calculations.ts:37-46 | with Z >= 0 and sigma_d >= 0, R is at least the lead-time demand mu_d·L |
| InventoryCalculations.SafetyStockSquare | src/lib/calculations/inventory-calculations.ts:43-45 | the safety stock R - mu_d·L squares to Z²·sigma_d²·L, i.e. it is Z times sigma_d·sqrt(L) |
| InventoryCalculations.ReorderPointMonotoneInZ | src/lib/calculations/inventory-calculations.ts:37-46 | with sigma_d, L >= 0, R is non-decreasing in Z |
| InventoryCalculations.ReorderPointUnitLeadTime | src/lib/calculations/inventory-calculations.ts:37-46 | for L = 1, R = mu_d + Z·sigma_d |
| InventoryCalculations.CalculateZScore | src/lib/calculations/inventory-calculations.ts:119-130 | the key "0.90" gives exactly 1.28, "0.98" exactly 2.05, "0.99" exactly 2.33, and every other key, "0.95" included, gives 1.65 |
| InventoryCalculations.HundredthsText | src/lib/calculations/inventory-calculations.ts:128 | the text `toString` gives k/100: "0" for 0, otherwise "0." and the tenths digit, followed by the hundredths digit exactly when it is not zero |
| InventoryCalculations.ZScoreOfHundredths | src/lib/calculations/inventory-calculations.ts:119-130 | a service level of k hundredths gets 2.05 at 0.98, 2.33 at 0.99 and 1.65 otherwise; no level of k hundredths gets 1.28 |
| InventoryCalculations.HundredthsTextShortest | src/lib/calculations/inventory-calculations.ts:128 | the text of k/100 never ends in a zero after its decimal point |
| InventoryCalculations.NoNumberGetsNinetyEntry | src/lib/calculations/inventory-calculations.ts:119-130 | under a printer that agrees with `HundredthsText` and never ends a plain (exponent-free) decimal in a zero after its point, no number's text is the key "0.90", so every service level gets 1.65, 2.05 or 2.33 and never 1.28 |
| InventoryCalculations.ExponentFormsAreShortest | src/lib/calculations/inventory-calculations.ts:128 | the shortest-decimal rule holds of exponent texts such as "1.2e-10" and "1.1e+30", which end in a zero, and it excludes "0.90" |
| InventoryCalculations.NinetyPercentFallsThrough | src/lib/calculations/inventory-calculations.ts:128-129 | 0.9 prints as "0.9", misses the "0.90" entry and falls back to 1.65 |
| InventoryCalculations.Round | src/lib/calculations/inventory-calculations.ts:108 | `Math.round` gives the integer within half a unit, x - 1/2 < v <= x + 1/2, so halves round up |
| InventoryCalculations.DemandFromSample | src/lib/calculations/inventory-calculations.ts:108-111 | one day's demand is a non-negative whole number |
| InventoryCalculations.DemandOf | src/lib/calculations/inventory-calculations.ts:95-117 | one demand per sample, each a non-negative whole number |
| InventoryCalculations.DemandFromSampleSpec | src/lib/calculations/inventory-calculations.ts:108-111 | each day's demand is a non-negative whole number, within half a unit of mu + sigma·z when that is at least -1/2, and 0 below |
| InventoryCalculations.GenerateDemand | src/lib/calculations/inventory-calculations.ts:95-117 | the loop yields, day by day, the clamped rounded demand of the given sample |
| InventoryCalculations.Day | src/lib/calculations/inventory-calculations.ts:68-81 | one iteration of the simulation loop: subtract the demand, count and clamp a shortfall, reorder at or below R, record the level; characterised by `DaySpec` and `OrderRule` |
| InventoryCalculations.Clamp | src/lib/calculations/inventory-calculations.ts:70-74 | stock after a shortfall is cut to 0: the result is non-negative, never below the stock, and equal to it when the stock is not negative |
| InventoryCalculations.DaySpec | src/lib/calculations/inventory-calculations.ts:68-81 | one day appends exactly one level and keeps the earlier ones, counts a stockout exactly when demand exceeds the opening stock, appends at most that day as an order day, and never lowers the unmet total |
| InventoryCalculations.Simulate | src/lib/calculations/inventory-calculations.ts:61-89 | one level per day; stockout days at most the day count; unmet units non-negative; order days inside [0, days) and strictly increasing |
| InventoryCalculations.SimulateInventory | src/lib/calculations/inventory-calculations.ts:51-90 | the loop returns exactly the record `Simulate` specifies for the given demand |
| InventoryCalculations.LevelsNonNegative | src/lib/calculations/inventory-calculations.ts:70-81 | if Q >= 0, every recorded level is >= 0 |
| InventoryCalculations.LevelsAboveReorderPoint | src/lib/calculations/inventory-calculations.ts:76-81 | if R < Q, every recorded level is above R |
| InventoryCalculations.OrderRule | src/lib/calculations/inventory-calculations.ts:67-81 | day d is an order day exactly when its clamped stock is at most R; the level is then clamped stock + Q, otherwise the clamped stock |
| InventoryCalculations.ShortfallDays | src/lib/calculations/inventory-calculations.ts:70-71 | the number of days whose opening stock minus demand is negative is at most the number of days |
| InventoryCalculations.ShortfallUnits | src/lib/calculations/inventory-calculations.ts:70-72 | the summed shortfalls are non-negative |
| InventoryCalculations.StockoutCounts | src/lib/calculations/inventory-calculations.ts:70-74 | the two counters equal the number of shortfall days and the sum of the shortfalls, recomputed from the recorded levels |
| InventoryCalculations.CalculateResults | src/lib/calculations/inventory-calculations.ts:3-28 | D = mu_d·dias; Q and R come from the formulas above; Z is the lookup under the service level's text, never 1.28, and for a level of k hundredths the value `ZScoreOfHundredths` gives; the simulation runs Q and R over the demand drawn from the samples |
| DashboardInventory.CalculateEOQ | src/lib/inventory-calculations.ts:1-3 | Q >= 0, Q·Q = 2DS/H, and it equals the first file's EOQ |
| DashboardInventory.CalculateReorderPoint | src/lib/inventory-calculations.ts:8-12 | equals the first file's reorder point for every input |
| DashboardInventory.SimulateInventory | src/lib/inventory-calculations.ts:17-50 | for the same demand, returns the same record as the first file's simulation, so it inherits every simulation property above |
| DashboardInventory.DashboardDefaults | src/app/dashboard/page.tsx:29-38 | the dashboard's starting parameters give Q² = 479062.5 for the annual demand 105·365, Z = 1.65 for the service level 0.95 printed as "0.95", and R = 126.945 |
| TimeSeriesAnalysis.SplitIndex | src/lib/calculations/time-series-analysis.ts:5 | the split index is the floor of 0.7·n |
| TimeSeriesAnalysis.SplitData | src/lib/calculations/time-series-analysis.ts:5-7 | training followed by testing is the data; the training part has floor(0.7·n) points |
| TimeSeriesAnalysis.SplitShape | src/lib/calculations/time-series-analysis.ts:5-7 | for n >= 2, the testing part is non-empty and no longer than the training part |
| TimeSeriesAnalysis.ModelParamsFor | src/lib/calculations/time-series-analysis.ts:39-50 | alpha is 0.2; beta is 0.1 exactly when there is a trend, else null; gamma is 0.1 exactly when there is seasonality, else null; the label is ETS(A,x,y) with x = A/N by trend and y = A/N by seasonality |
| TimeSeriesAnalysis.ModelLabelDeterminesFlags | src/lib/calculations/time-series-analysis.ts:43-49 | the four labels are distinct: the label fixes both flags |
| TimeSeriesAnalysis.Fitted | src/lib/calculations/time-series-analysis.ts:203-210 | one fitted level per point, the first being the first point |
| TimeSeriesAnalysis.FitRmse | src/lib/calculations/time-series-analysis.ts:219-220 | the in-sample RMSE is non-negative |
| TimeSeriesAnalysis.SmoothingOf | src/lib/calculations/time-series-analysis.ts:198-230 | predictions and both bounds have length n + horizon; the first n predictions are the fitted levels; the horizon entries equal the final level |
| TimeSeriesAnalysis.SmoothingBounds | src/lib/calculations/time-series-analysis.ts:218-223 | every lower bound <= its prediction <= its upper bound, each bound exactly 1.96·RMSE away from the prediction |
| TimeSeriesAnalysis.FitLevels | src/lib/calculations/time-series-analysis.ts:203-210 | the fitting loop returns exactly the fitted levels and the final level the recurrence defines |
| TimeSeriesAnalysis.PerformExponentialSmoothing | src/lib/calculations/time-series-analysis.ts:198-230 | the two loops return exactly the smoothing result specified by `SmoothingOf` |
| TimeSeriesAnalysis.FittedPrefix | src/lib/calculations/time-series-analysis.ts:207-210 | fitting a prefix gives the prefix of the fitted levels: a level depends only on the points seen so far |
| TimeSeriesAnalysis.FittedBetween | src/lib/calculations/time-series-analysis.ts:208 | data within [lo, hi] gives fitted levels within [lo, hi] (a convex combination) |
| TimeSeriesAnalysis.FittedWithinPrefixRange | src/lib/calculations/time-series-analysis.ts:203-210 | each fitted level lies between the minimum and maximum of the points up to it |
| TimeSeriesAnalysis.ConstantSeriesForecast | src/lib/calculations/time-series-analysis.ts:200-216 | a constant series is predicted as that constant everywhere, horizon included |
| TimeSeriesAnalysis.AbsErrorSum | src/lib/calculations/time-series-analysis.ts:242 | the running sum of absolute errors is non-negative |
| TimeSeriesAnalysis.SqErrorSum | src/lib/calculations/time-series-analysis.ts:243 | the running sum of squared errors is non-negative |
| TimeSeriesAnalysis.PercentError | src/lib/calculations/time-series-analysis.ts:246-248 | a percentage term is non-negative, and 0 when the actual value is 0 |
| TimeSeriesAnalysis.PctErrorSum | src/lib/calculations/time-series-analysis.ts:246-248 | the running percentage sum is non-negative |
| TimeSeriesAnalysis.AccuracyOf | src/lib/calculations/time-series-analysis.ts:233-260 | MAE, RMSE and MAPE are all non-negative |
| TimeSeriesAnalysis.Overlap | src/lib/calculations/time-series-analysis.ts:234 | `Math.min(actual.length, forecast.length)`: at most each length and equal to one of them |
| TimeSeriesAnalysis.ErrorSums | src/lib/calculations/time-series-analysis.ts:240-249 | the loop's running sums are the sums of absolute errors, squared errors and percentage errors over the first n positions, a zero actual value adding no percentage |
| TimeSeriesAnalysis.CalculateAccuracy | src/lib/calculations/time-series-analysis.ts:233-260 | the three sums divided by the overlap give exactly the metrics `AccuracyOf` specifies |
| TimeSeriesAnalysis.AbsErrorSumZeroIff | src/lib/calculations/time-series-analysis.ts:240-243 | the absolute-error sum is 0 exactly when the compared values agree |
| TimeSeriesAnalysis.ExactForecastSums | src/lib/calculations/time-series-analysis.ts:240-249 | identical inputs give zero absolute, squared and percentage sums |
| TimeSeriesAnalysis.MaeZeroIff | src/lib/calculations/time-series-analysis.ts:251-253 | MAE is 0 exactly when actual and forecast agree on the overlap, and then MAPE is 0 too |
| TimeSeriesAnalysis.ZeroActualsPctSum | src/lib/calculations/time-series-analysis.ts:246-248 | actual values that are all 0 add nothing to the percentage sum |
| TimeSeriesAnalysis.ZeroActualStillCounted | src/lib/calculations/time-series-analysis.ts:240-253 | a zero actual skips the percentage term but still adds its absolute error and counts in the divisor |
| TimeSeriesAnalysis.ResidualsOf | src/lib/calculations/time-series-analysis.ts:263-278 | the residual variance is non-negative |
| TimeSeriesAnalysis.ResidualValues | src/lib/calculations/time-series-analysis.ts:264-269 | one residual actual[i] - forecast[i] per compared position, so its length is the overlap |
| TimeSeriesAnalysis.AnalyzeResiduals | src/lib/calculations/time-series-analysis.ts:263-278 | the loops return exactly the residual vector, mean and variance `ResidualsOf` specifies |
| TimeSeriesAnalysis.ResidualMean | src/lib/calculations/time-series-analysis.ts:264-272 | the residual mean is the mean of the actual values minus the mean of the forecasts on the overlap |
| TimeSeriesAnalysis.ResidualVarianceZeroIff | src/lib/calculations/time-series-analysis.ts:272-278 | the variance is 0 exactly when every residual equals the mean |
| TimeSeriesAnalysis.Insert | src/lib/calculations/time-series-analysis.ts:175 | inserting one element lengthens the sequence by one |
| TimeSeriesAnalysis.InsertMultiset | src/lib/calculations/time-series-analysis.ts:175 | inserting adds exactly that one element and keeps every other one |
| TimeSeriesAnalysis.InsertSorted | src/lib/calculations/time-series-analysis.ts:175 | inserting into a sorted sequence keeps it sorted |
| TimeSeriesAnalysis.SortedCopy | src/lib/calculations/time-series-analysis.ts:175 | the copy has as many elements as the data |
| TimeSeriesAnalysis.SortedCopySpec | src/lib/calculations/time-series-analysis.ts:175 | the sorted copy is ascending and a permutation of the data |
| TimeSeriesAnalysis.PermutationBetweenMinMax | src/lib/calculations/time-series-analysis.ts:175-179 | every element of a permutation of the data lies between the data's minimum and maximum |
| TimeSeriesAnalysis.MedianOf | src/lib/calculations/time-series-analysis.ts:175-177 | the middle element of the sorted copy, or the average of the two middle ones for an even count; bounded by `MedianBetweenMinMax` |
| TimeSeriesAnalysis.MedianBetweenMinMax | src/lib/calculations/time-series-analysis.ts:176-179 | the median, middle element or average of the two middle elements, lies between min and max |
| TimeSeriesAnalysis.StdOf | src/lib/calculations/time-series-analysis.ts:182-186 | std >= 0 and std² is the mean squared deviation from the mean |
| TimeSeriesAnalysis.StatisticsOf | src/lib/calculations/time-series-analysis.ts:170-195 | min <= median <= max and min <= mean <= max |
| TimeSeriesAnalysis.CalculateStatistics | src/lib/calculations/time-series-analysis.ts:170-195 | the squared-deviation loop and the rest return exactly the statistics `StatisticsOf` specifies |
| TimeSeriesAnalysis.SlopeDenominator | src/lib/calculations/time-series-analysis.ts:105 | the sum of squared x-deviations is non-negative |
| TimeSeriesAnalysis.SlopeNumerator | src/lib/calculations/time-series-analysis.ts:103-104 | the running sum of (i - meanX)·(data[i] - meanY); on data that lie on a line a + b·i it is b times `SlopeDenominator` by `NumeratorOfLine` |
| TimeSeriesAnalysis.LeastSquaresSlope | src/lib/calculations/time-series-analysis.ts:108 | numerator over denominator, defined from two points on, where `DenominatorPositive` makes the denominator positive; on a line a + b·i it is b by `SlopeOfLine` |
| TimeSeriesAnalysis.TrendThreshold | src/lib/calculations/time-series-analysis.ts:111 | the threshold 0.01·(max - min)/n is non-negative |
| TimeSeriesAnalysis.TrendOf | src/lib/calculations/time-series-analysis.ts:88-117 | a slope is reported exactly when there is a trend; a trend needs at least two points; from two points on there is a trend exactly when the least-squares slope's size exceeds the threshold, and the reported slope is that least-squares slope |
| TimeSeriesAnalysis.DetectTrend | src/lib/calculations/time-series-analysis.ts:88-117 | the accumulator loop returns exactly the decision `TrendOf` specifies |
| TimeSeriesAnalysis.SumOfAffine | src/lib/calculations/time-series-analysis.ts:96-97 | the sum of a + b·x over xs is n·a + b·sum(xs) |
| TimeSeriesAnalysis.NumeratorOfLine | src/lib/calculations/time-series-analysis.ts:103-106 | on a line with slope b, the covariance accumulator is b times the variance accumulator |
| TimeSeriesAnalysis.DenominatorGrows | src/lib/calculations/time-series-analysis.ts:105 | the variance accumulator never decreases along the loop |
| TimeSeriesAnalysis.DenominatorPositive | src/lib/calculations/time-series-analysis.ts:105-108 | with two or more points the slope's denominator is positive |
| TimeSeriesAnalysis.MeanOfLine | src/lib/calculations/time-series-analysis.ts:96-97 | the mean of a + b·i is a + b times the mean index |
| TimeSeriesAnalysis.SlopeOfLineAtMeans | src/lib/calculations/time-series-analysis.ts:103-108 | on a line through the means, the least-squares slope is the line's slope |
| TimeSeriesAnalysis.SlopeOfLine | src/lib/calculations/time-series-analysis.ts:93-108 | the slope computed from data lying on a + b·i is exactly b |
| TimeSeriesAnalysis.ConstantSeriesNoTrend | src/lib/calculations/time-series-analysis.ts:108-116 | a constant series never has a trend |
| TimeSeriesAnalysis.LineWithinBand | src/lib/calculations/time-series-analysis.ts:111 | points of a + b·i lie within a ± abs(b)·(n - 1) |
| TimeSeriesAnalysis.RangeOfLine | src/lib/calculations/time-series-analysis.ts:111 | the range of a line's points is at most 2·abs(b)·(n - 1) |
| TimeSeriesAnalysis.ThresholdBelowSlope | src/lib/calculations/time-series-analysis.ts:111 | such a range puts the threshold 0.01·range/n below abs(b) |
| TimeSeriesAnalysis.LineThresholdBelowSlope | src/lib/calculations/time-series-analysis.ts:111 | for a non-flat line, the trend threshold is below abs(b) |
| TimeSeriesAnalysis.SlopedLineHasTrend | src/lib/calculations/time-series-analysis.ts:88-117 | a non-flat line of two or more points is reported as a trend with slope exactly b |
| TimeSeriesAnalysis.MaxLag | src/lib/calculations/time-series-analysis.ts:124 | the lag count is min(50, floor(n/4)) |
| TimeSeriesAnalysis.PeakSearch | src/lib/calculations/time-series-analysis.ts:151-161 | the running best peak after the candidates below k; characterised by `PeakSearchSpec` |
| TimeSeriesAnalysis.PeakSearchSpec | src/lib/calculations/time-series-analysis.ts:147-161 | no period exactly when no inner index is a peak above 0.2, with the maximum then 0; otherwise period - 1 is a peak with the largest value, strictly above every earlier peak (the earliest wins on ties) |
| TimeSeriesAnalysis.SeasonalityOf | src/lib/calculations/time-series-analysis.ts:147-166 | seasonality implies a period; a period p has 2 <= p < array length, and p - 1 is a peak; there is seasonality exactly when there is a period and its peak's autocorrelation exceeds 0.3 |
| TimeSeriesAnalysis.DetectSeasonality | src/lib/calculations/time-series-analysis.ts:120-167 | the peak loop returns exactly `SeasonalityOf` of the autocorrelations, and any period is between 2 and 49 |
| TimeSeriesAnalysis.ForecastSliceIsFitted | src/lib/calculations/time-series-analysis.ts:20-26 | the predictions compared with the testing part are the first fitted training levels, never horizon values |
| TimeSeriesAnalysis.AnalyzeTimeSeries | src/lib/calculations/time-series-analysis.ts:3-52 | the result holds the 70/30 split, the trend, seasonality and statistics of the whole series, the smoothing of the training part with horizon testing + 10, accuracy and residuals of the testing part against the first fitted training levels, and the model table |
| ExcelUploader.Set | src/components/excel-uploader.tsx:82-116 | writing a field sets exactly that field and leaves every other field as it was |
| ExcelUploader.EmptyIffNoField | src/components/excel-uploader.tsx:122 | the record is empty exactly when every field is absent |
| ExcelUploader.TrimStart | src/components/excel-uploader.tsx:78 | removing leading white space never lengthens the text |
| ExcelUploader.IsWhitespace | src/components/excel-uploader.tsx:78 | the characters `trim()` removes: the ECMAScript white space and line terminators; what trimming does with them is stated by `TrimStartSpec`, `TrimEndSpec` and `TrimSpec` |
| ExcelUploader.TrimStartSpec | src/components/excel-uploader.tsx:78 | the result is the suffix left after removing only white space, and it does not start with white space |
| ExcelUploader.TrimEnd | src/components/excel-uploader.tsx:78 | removing trailing white space never lengthens the text |
| ExcelUploader.TrimEndSpec | src/components/excel-uploader.tsx:78 | the result is the prefix left after removing only white space, and it does not end with white space |
| ExcelUploader.TrimSpec | src/components/excel-uploader.tsx:78 | trimming keeps a contiguous run of the name, drops only white space around it, and leaves none at either end |
| ExcelUploader.Trim | src/components/excel-uploader.tsx:78 | trimming never lengthens the name; its content is stated by `TrimSpec` |
| ExcelUploader.TrimIdempotent | src/components/excel-uploader.tsx:78 | trimming twice is trimming once |
| ExcelUploader.Lower | src/components/excel-uploader.tsx:78 | lower-casing keeps the length of the name |
| ExcelUploader.LowerCharWhitespace | src/components/excel-uploader.tsx:78 | lower-casing a character neither creates nor removes white space |
| ExcelUploader.LowerChar | src/components/excel-uploader.tsx:78 | `toLowerCase()` on one character leaves no ASCII or Latin-1 capital, and changes a character only by moving it to its lower-case partner 32 code points up |
| ExcelUploader.Normalize | src/components/excel-uploader.tsx:78 | the matched name is no longer than the cell text |
| ExcelUploader.NormalizeIdempotent | src/components/excel-uploader.tsx:78 | normalising a normalised name changes nothing: trimming and lower-casing together are idempotent |
| ExcelUploader.LowerIdempotent | src/components/excel-uploader.tsx:78 | lower-casing twice is lower-casing once |
| ExcelUploader.StoredValue | src/components/excel-uploader.tsx:111-115 | fields other than the service level keep their value; a service level v > 1 is stored as v/100 (100 times the stored value gives v back); a level of at most 1 is kept |
| ExcelUploader.FieldOf | src/components/excel-uploader.tsx:82-116 | the field the `switch` selects: `Some` of the labelled field for a case label of `Aliases`, `None` otherwise; every label selects one field by `AliasesCoverFields`, and every label is reachable by `AliasesNormalised` |
| ExcelUploader.AliasesNormalised | src/components/excel-uploader.tsx:78-116 | every case label is already trimmed and lower-cased, so no label is dead behind the normalisation of :78 |
| ExcelUploader.NormalNameFixed | src/components/excel-uploader.tsx:78 | a name with no white space at its ends and no capital is left unchanged by trimming and lower-casing |
| ExcelUploader.Writes | src/components/excel-uploader.tsx:77-116 | the guard of one loop pass: at least two cells, a string name whose normal form selects the field, and a value that is not NaN; `ApplyRowSpec` shows a row changes exactly the fields it writes |
| ExcelUploader.ServiceLevelAsFraction | src/components/excel-uploader.tsx:111-115 | a percentage in (1, 100] is stored as a fraction in (0.01, 1] |
| ExcelUploader.ApplyRow | src/components/excel-uploader.tsx:77-118 | one pass of the loop body: a usable row writes the field its name selects; characterised by `ApplyRowSpec`, `SkippedRows` and `UnknownNameIgnored` |
| ExcelUploader.Parsed | src/components/excel-uploader.tsx:73-119 | the record after the first rows, fold of `ApplyRow` from the empty record; characterised by `AbsentIffNeverWritten` and `LastWriteWins` |
| ExcelUploader.ParseResult | src/components/excel-uploader.tsx:73-127 | the no-data error when the record is empty, the record otherwise; characterised by `ErrorIffNothingWritten` |
| ExcelUploader.ParseParamRows | src/components/excel-uploader.tsx:73-127 | the loop and the emptiness check return exactly `ParseResult` of the rows |
| ExcelUploader.ApplyRowSpec | src/components/excel-uploader.tsx:76-119 | a row writes the stored value into the field its name selects and changes nothing else |
| ExcelUploader.SkippedRows | src/components/excel-uploader.tsx:77-81 | rows with fewer than two cells, a non-string name or a NaN value leave the record unchanged |
| ExcelUploader.UnknownNameIgnored | src/components/excel-uploader.tsx:82-116 | a name matching no alias leaves the record unchanged |
| ExcelUploader.AbsentIffNeverWritten | src/components/excel-uploader.tsx:76-119 | a field is absent from the result exactly when no row writes it |
| ExcelUploader.LastWriteWins | src/components/excel-uploader.tsx:76-119 | a field holds the stored value of the last row that writes it |
| ExcelUploader.ErrorIffNothingWritten | src/components/excel-uploader.tsx:122-127 | the result is the error "No se encontraron datos válidos en el formato esperado" exactly when no row writes a field; otherwise it is the record |
| ExcelUploader.AliasesCoverFields | src/components/excel-uploader.tsx:82-116 | every field of the record is selected by some alias, and each alias selects a single field |
| ExcelUploader.PaddedAccentedNameMatches | src/components/excel-uploader.tsx:78-86 | " Días " is trimmed and lower-cased to the alias "días" and selects the period field |
| ExcelUploader.HoldingCostRowIgnored | src/components/excel-uploader.tsx:11-19 | a row named "H" writes nothing: the record has no holding-cost field |

## Left out

- Square root: `Math.sqrt` is the parameter `sqrt`, constrained only by `IsSqrt`. No square root is computed.
- Random demand: `generateDemand` in both inventory files draws with `Math.random`, `Math.log`, `Math.cos` and Box-Muller. The standard-normal samples are an input instead. The model keeps the rounding and the clamp at zero. `simulateInventory` in both files calls `generateDemand` itself; the model passes it the demand sequence.
- IEEE-754 behaviour:
  - Arithmetic is exact and there is no NaN or Infinity.
  - 0.7 is the rational 7/10, so the split index is floor(7n/10). In floating point, `0.7 * 90` is 62.99999999999999, which gives 62 rather than 63. Other lengths may differ the same way.
  - Empty or too-short inputs are behind preconditions: smoothing, accuracy and residuals need at least one point.
  - `detectTrend` with a zero denominator divides 0 by 0. The result is NaN, so the comparison fails and the slope is null. `TrendOf` models this case directly as "no trend".
- AnalyzeTimeSeries: requires at least 2 points. With one point the training part is empty. The source then still returns a trend, seasonality and statistics. Its `predictions` are `undefined`, because the level starts from the first point of an empty training array, and its bounds, accuracy and residuals are NaN. The model does not cover that run.
- CalculateResults: `toString` is modelled only by the two properties of `IsNumberText`. Its text for other numbers, such as 0.975 or 1 from the sheet, is left open. For those the model proves only that Z is 1.65, 2.05 or 2.33.
- Demand values: they are whole numbers in JavaScript. The model keeps them as reals that are proved whole.
- `dias`: a `nat` day count; fractional day counts are not modelled.
- Statistical tests:
  - the ADF statistic and p-value, including the `adfTest` field of the analysis result;
  - the normality, autocorrelation and homoscedasticity tests of `analyzeResiduals`;
  - skewness, kurtosis, `normCDF` and `chiSquareCDF`.
  These rely on `exp`, fractional powers and floating-point formulas.
- Autocorrelation values: the lag loop of `detectSeasonality` that computes them (lines 127-145) is not modelled. The values are an input of length maxLag, and only the peak search over them is modelled.
- Sorting: `[...data].sort` is modelled as a sorted permutation built by insertion. The JavaScript sort algorithm is not modelled.
- `CalculateStatistics` evaluation order: the model computes the squared-deviation sum before the sorted copy, minimum and maximum. The source sorts first. These are independent computations, and the model's result equals `StatisticsOf`.
- Lower-casing: `toLowerCase` is modelled for ASCII capitals and the Latin-1 capitals U+00C0 to U+00DE, except U+00D7. Other case mappings are not modelled. None of them can turn a name into an alias. The only one that yields a basic Latin letter alone is U+212A (Kelvin sign) to 'k', and no alias contains 'k'. So the names that match are the same.
- Cell conversion: `Number(row[1])` is abstracted as an optional real, with None for NaN. JavaScript's string-to-number coercion is not modelled.
- Sheet reading: `XLSX.read`, `FileReader` and `sheet_to_json`, plus the "Error al procesar el archivo Excel" and "Error al leer el archivo" paths, depend on file I/O and are not modelled.
- Dashboard page:
  - `calculateZScore` in `src/app/dashboard/page.tsx` has the same table and fallback as the library function; `DashboardDefaults` uses the library one.
  - Its `H = 0.2·C` update is React state and is not modelled.
- Other files:
  - UI components, pages and type-only files are rendering, React state or type declarations.
  - `src/lib/time-series-analysis.ts` is imported by the time-series page but is not part of this model. The model follows `src/lib/calculations/time-series-analysis.ts`.
