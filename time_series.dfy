/**
 * The time-series pipeline of src/lib/calculations/time-series-analysis.ts:
 * the 70/30 split, simple exponential smoothing with its bounds, the accuracy
 * metrics, the residual summary, the descriptive statistics, the least-squares
 * trend decision, the seasonality peak search and the model-label table, all
 * over exact reals.
 *
 * Cases where the source computes NaN (an empty series, an empty training
 * part) are excluded by preconditions; the one NaN the source turns into a
 * decision (a zero slope denominator in `detectTrend`) is modelled as "no trend".
 */
module TimeSeriesAnalysis {
  import opened RealMath
  import opened Wrappers

  // ---------------------------------------------------------------------------
  // Split
  // ---------------------------------------------------------------------------

  /** `Math.floor(n * 0.7)`, with 0.7 the exact fraction 7/10. */
  function SplitIndex(n: nat): (k: nat)
    ensures k <= n
    ensures k as real <= 0.7 * n as real < k as real + 1.0
  {
    n * 7 / 10
  }

  datatype Split = Split(training: seq<real>, testing: seq<real>)

  /** `data.slice(0, splitIndex)` and `data.slice(splitIndex)`. */
  function SplitData(data: seq<real>): (s: Split)
    ensures s.training + s.testing == data
    ensures |s.training| == SplitIndex(|data|)
  {
    var k := SplitIndex(|data|);
    Split(data[..k], data[k..])
  }

  /**
   * From two points on, the training part is non-empty and at least as long as
   * the testing part, and the testing part is never empty.
   */
  lemma SplitShape(data: seq<real>)
    requires 2 <= |data|
    ensures var s := SplitData(data);
      0 < |s.testing| <= |s.training|
  {
    var n := |data|;
    var k := SplitIndex(n);
    if n >= 5 {
      assert 10 * k > 7 * n - 10;
    }
  }

  // ---------------------------------------------------------------------------
  // Model parameters
  // ---------------------------------------------------------------------------

  datatype ModelParameters = ModelParameters(alpha: real, beta: Option<real>, gamma: Option<real>, model: string)

  /** The `modelParams` table: smoothing weights and the ETS(error, trend, season) label. */
  function ModelParamsFor(hasTrend: bool, hasSeasonality: bool): (p: ModelParameters)
    ensures p.alpha == 0.2
    ensures p.beta.Some? <==> hasTrend
    ensures p.beta.Some? ==> p.beta.value == 0.1
    ensures p.gamma.Some? <==> hasSeasonality
    ensures p.gamma.Some? ==> p.gamma.value == 0.1
    ensures |p.model| == 10 && p.model[..6] == "ETS(A," && p.model[7] == ',' && p.model[9] == ')'
    ensures p.model[6] == (if hasTrend then 'A' else 'N')
    ensures p.model[8] == (if hasSeasonality then 'A' else 'N')
  {
    ModelParameters(
      0.2,
      if hasTrend then Some(0.1) else None,
      if hasSeasonality then Some(0.1) else None,
      if hasTrend then
        if hasSeasonality then "ETS(A,A,A)" else "ETS(A,A,N)"
      else
        if hasSeasonality then "ETS(A,N,A)" else "ETS(A,N,N)")
  }

  /** The label tells the two flags apart: different flags give different labels. */
  lemma ModelLabelDeterminesFlags(t1: bool, s1: bool, t2: bool, s2: bool)
    requires ModelParamsFor(t1, s1).model == ModelParamsFor(t2, s2).model
    ensures t1 == t2 && s1 == s2
  {
    assert ModelParamsFor(t1, s1).model[6] == ModelParamsFor(t2, s2).model[6];
    assert ModelParamsFor(t1, s1).model[8] == ModelParamsFor(t2, s2).model[8];
  }

  // ---------------------------------------------------------------------------
  // Exponential smoothing
  // ---------------------------------------------------------------------------

  const Alpha: real := 0.2

  /** The fitted levels: the first value, then level := α·x + (1 - α)·level for every later x. */
  function Fitted(data: seq<real>): (f: seq<real>)
    requires |data| > 0
    ensures |f| == |data| && f[0] == data[0]
  {
    if |data| == 1 then [data[0]]
    else
      var p := Fitted(data[..|data| - 1]);
      p + [Alpha * data[|data| - 1] + (1.0 - Alpha) * p[|p| - 1]]
  }

  /** The level after the last value, repeated over the forecast horizon. */
  function FinalLevel(data: seq<real>): real
    requires |data| > 0
  {
    Fitted(data)[|data| - 1]
  }

  /** Square root of the mean squared difference between the data and its fitted levels. */
  function FitRmse(data: seq<real>, sqrt: real -> real): (r: real)
    requires IsSqrt(sqrt) && |data| > 0
    ensures 0.0 <= r
  {
    var f := Fitted(data);
    var residuals := seq(|data|, i requires 0 <= i < |data| => data[i] - f[i]);
    var sq := SqDevSum(residuals, 0.0);
    DivideMonotone(0.0, sq, |data| as real);
    sqrt(sq / |data| as real)
  }

  datatype SmoothingResult = SmoothingResult(predictions: seq<real>, lowerBounds: seq<real>, upperBounds: seq<real>)

  /**
   * The output of `performExponentialSmoothing`: the fitted levels followed by
   * `horizon` copies of the final level, with bounds 1.96·rmse below and above.
   */
  function SmoothingOf(data: seq<real>, horizon: nat, sqrt: real -> real): (r: SmoothingResult)
    requires IsSqrt(sqrt) && |data| > 0
    ensures |r.predictions| == |r.lowerBounds| == |r.upperBounds| == |data| + horizon
    ensures r.predictions[..|data|] == Fitted(data)
    ensures forall i :: |data| <= i < |data| + horizon ==> r.predictions[i] == FinalLevel(data)
  {
    var f := Fitted(data);
    var level := f[|f| - 1];
    var p := f + seq(horizon, _ => level);
    var rmse := FitRmse(data, sqrt);
    SmoothingResult(
      p,
      seq(|p|, i requires 0 <= i < |p| => p[i] - 1.96 * rmse),
      seq(|p|, i requires 0 <= i < |p| => p[i] + 1.96 * rmse))
  }

  /** Each bound lies 1.96·rmse from its prediction, below and above, so lower <= prediction <= upper. */
  lemma SmoothingBounds(data: seq<real>, horizon: nat, sqrt: real -> real)
    requires IsSqrt(sqrt) && |data| > 0
    ensures var r := SmoothingOf(data, horizon, sqrt);
      forall i :: 0 <= i < |data| + horizon ==>
        && r.upperBounds[i] - r.predictions[i] == 1.96 * FitRmse(data, sqrt)
        && r.predictions[i] - r.lowerBounds[i] == 1.96 * FitRmse(data, sqrt)
        && r.lowerBounds[i] <= r.predictions[i] <= r.upperBounds[i]
  {
    var r := SmoothingOf(data, horizon, sqrt);
    var w := 1.96 * FitRmse(data, sqrt);
    assert 0.0 <= w;
    forall i | 0 <= i < |data| + horizon
      ensures r.upperBounds[i] - r.predictions[i] == w && r.predictions[i] - r.lowerBounds[i] == w
    {
      assert r.upperBounds[i] == r.predictions[i] + w;
      assert r.lowerBounds[i] == r.predictions[i] - w;
    }
  }

  /** The fitting loop of `performExponentialSmoothing` (lines 203-210). */
  method FitLevels(data: seq<real>) returns (fitted: seq<real>, level: real)
    requires |data| > 0
    ensures fitted == Fitted(data) && level == FinalLevel(data)
  {
    level := data[0];
    fitted := [level];
    for i := 1 to |data|
      invariant fitted == Fitted(data[..i])
      invariant level == fitted[i - 1]
    {
      assert data[..i + 1][..i] == data[..i];
      level := Alpha * data[i] + (1.0 - Alpha) * level;
      fitted := fitted + [level];
    }
    assert data[..|data|] == data;
  }

  /** `performExponentialSmoothing(data, horizon)` on a non-empty series. */
  method PerformExponentialSmoothing(data: seq<real>, horizon: nat, sqrt: real -> real) returns (r: SmoothingResult)
    requires IsSqrt(sqrt) && |data| > 0
    ensures r == SmoothingOf(data, horizon, sqrt)
  {
    var fitted, level := FitLevels(data);
    var predictions := fitted;
    for i := 0 to horizon
      invariant predictions == fitted + seq(i, _ => level)
    {
      predictions := predictions + [level];
    }
    var residuals := seq(|data|, i requires 0 <= i < |data| => data[i] - fitted[i]);
    var rmse := sqrt(SqDevSum(residuals, 0.0) / |data| as real);
    assert rmse == FitRmse(data, sqrt);
    r := SmoothingResult(
      predictions,
      seq(|predictions|, i requires 0 <= i < |predictions| => predictions[i] - 1.96 * rmse),
      seq(|predictions|, i requires 0 <= i < |predictions| => predictions[i] + 1.96 * rmse));
  }

  /** The fitted levels of a prefix are the prefix of the fitted levels. */
  lemma {:induction false} FittedPrefix(data: seq<real>, k: nat)
    requires 1 <= k <= |data|
    ensures Fitted(data[..k]) == Fitted(data)[..k]
  {
    var n := |data|;
    if k == n {
      assert data[..k] == data;
    } else {
      FittedPrefix(data[..n - 1], k);
      assert data[..n - 1][..k] == data[..k];
      assert Fitted(data)[..n - 1] == Fitted(data[..n - 1]);
    }
  }

  /** With α = 0.2 each level is a convex combination, so data inside [lo, hi] keeps every level inside. */
  lemma {:induction false} FittedBetween(data: seq<real>, lo: real, hi: real)
    requires |data| > 0
    requires forall i :: 0 <= i < |data| ==> lo <= data[i] <= hi
    ensures forall i :: 0 <= i < |data| ==> lo <= Fitted(data)[i] <= hi
  {
    if |data| > 1 {
      FittedBetween(data[..|data| - 1], lo, hi);
    }
  }

  /** Every fitted level lies between the minimum and the maximum of the values seen so far. */
  lemma FittedWithinPrefixRange(data: seq<real>)
    requires |data| > 0
    ensures forall i :: 0 <= i < |data| ==> MinOf(data[..i + 1]) <= Fitted(data)[i] <= MaxOf(data[..i + 1])
  {
    forall i | 0 <= i < |data|
      ensures MinOf(data[..i + 1]) <= Fitted(data)[i] <= MaxOf(data[..i + 1])
    {
      var pre := data[..i + 1];
      FittedBetween(pre, MinOf(pre), MaxOf(pre));
      FittedPrefix(data, i + 1);
      assert Fitted(pre)[i] == Fitted(data)[i];
    }
  }

  /** A constant series is forecast as that constant, fitted part and horizon alike. */
  lemma ConstantSeriesForecast(data: seq<real>, c: real, horizon: nat, sqrt: real -> real)
    requires IsSqrt(sqrt) && |data| > 0
    requires forall i :: 0 <= i < |data| ==> data[i] == c
    ensures forall i :: 0 <= i < |data| + horizon ==> SmoothingOf(data, horizon, sqrt).predictions[i] == c
  {
    FittedBetween(data, c, c);
    var r := SmoothingOf(data, horizon, sqrt);
    forall i | 0 <= i < |data|
      ensures r.predictions[i] == c
    {
      assert r.predictions[i] == r.predictions[..|data|][i];
    }
  }

  // ---------------------------------------------------------------------------
  // Accuracy
  // ---------------------------------------------------------------------------

  datatype AccuracyMetrics = AccuracyMetrics(mae: real, rmse: real, mape: real)

  /** `Math.min(actual.length, forecast.length)`: the number of compared positions. */
  function Overlap(actual: seq<real>, forecast: seq<real>): (n: nat)
    ensures n <= |actual| && n <= |forecast|
    ensures n == |actual| || n == |forecast|
  {
    if |actual| <= |forecast| then |actual| else |forecast|
  }

  /** Sum of |actual[i] - forecast[i]| over the first k positions. */
  function AbsErrorSum(actual: seq<real>, forecast: seq<real>, k: nat): (s: real)
    requires k <= |actual| && k <= |forecast|
    ensures 0.0 <= s
  {
    if k == 0 then 0.0 else AbsErrorSum(actual, forecast, k - 1) + Abs(actual[k - 1] - forecast[k - 1])
  }

  /** Sum of (actual[i] - forecast[i])² over the first k positions. */
  function SqErrorSum(actual: seq<real>, forecast: seq<real>, k: nat): (s: real)
    requires k <= |actual| && k <= |forecast|
    ensures 0.0 <= s
  {
    if k == 0 then 0.0
    else
      var e := actual[k - 1] - forecast[k - 1];
      SquareSign(e);
      SqErrorSum(actual, forecast, k - 1) + e * e
  }

  /** The percentage error of one position; a zero actual value contributes nothing. */
  function PercentError(a: real, f: real): (p: real)
    ensures 0.0 <= p
    ensures a == 0.0 ==> p == 0.0
  {
    if a != 0.0 then Abs((a - f) / a) * 100.0 else 0.0
  }

  /** Sum of the percentage errors over the first k positions. */
  function PctErrorSum(actual: seq<real>, forecast: seq<real>, k: nat): (s: real)
    requires k <= |actual| && k <= |forecast|
    ensures 0.0 <= s
  {
    if k == 0 then 0.0 else PctErrorSum(actual, forecast, k - 1) + PercentError(actual[k - 1], forecast[k - 1])
  }

  /**
   * `calculateAccuracy`: each sum divided by the number n of compared
   * positions, the squared one under the square root. All three are non-negative.
   */
  function AccuracyOf(actual: seq<real>, forecast: seq<real>, sqrt: real -> real): (m: AccuracyMetrics)
    requires IsSqrt(sqrt) && 0 < Overlap(actual, forecast)
    ensures 0.0 <= m.mae && 0.0 <= m.rmse && 0.0 <= m.mape
  {
    var n := Overlap(actual, forecast);
    var nn := n as real;
    var sae, sse, sape := AbsErrorSum(actual, forecast, n), SqErrorSum(actual, forecast, n), PctErrorSum(actual, forecast, n);
    DivideMonotone(0.0, sae, nn);
    DivideMonotone(0.0, sse, nn);
    DivideMonotone(0.0, sape, nn);
    AccuracyMetrics(sae / nn, sqrt(sse / nn), sape / nn)
  }

  /** The loop of `calculateAccuracy` (lines 240-249): its three running sums over the first n positions. */
  method ErrorSums(actual: seq<real>, forecast: seq<real>, n: nat)
    returns (sumAbsError: real, sumSquaredError: real, sumAbsPercentError: real)
    requires n <= |actual| && n <= |forecast|
    ensures sumAbsError == AbsErrorSum(actual, forecast, n)
    ensures sumSquaredError == SqErrorSum(actual, forecast, n)
    ensures sumAbsPercentError == PctErrorSum(actual, forecast, n)
  {
    sumAbsError, sumSquaredError, sumAbsPercentError := 0.0, 0.0, 0.0;
    for i := 0 to n
      invariant sumAbsError == AbsErrorSum(actual, forecast, i)
      invariant sumSquaredError == SqErrorSum(actual, forecast, i)
      invariant sumAbsPercentError == PctErrorSum(actual, forecast, i)
    {
      var error := actual[i] - forecast[i];
      sumAbsError := sumAbsError + Abs(error);
      sumSquaredError := sumSquaredError + error * error;
      if actual[i] != 0.0 {
        sumAbsPercentError := sumAbsPercentError + Abs(error / actual[i]) * 100.0;
      }
    }
  }

  /** `calculateAccuracy`: the running sums, each divided by the number of compared positions. */
  method CalculateAccuracy(actual: seq<real>, forecast: seq<real>, sqrt: real -> real) returns (m: AccuracyMetrics)
    requires IsSqrt(sqrt) && 0 < Overlap(actual, forecast)
    ensures m == AccuracyOf(actual, forecast, sqrt)
  {
    var n := if |actual| <= |forecast| then |actual| else |forecast|;
    var sumAbsError, sumSquaredError, sumAbsPercentError := ErrorSums(actual, forecast, n);
    m := AccuracyMetrics(sumAbsError / n as real, sqrt(sumSquaredError / n as real), sumAbsPercentError / n as real);
  }

  /** The absolute errors add up to zero exactly when the two series agree on every compared position. */
  lemma {:induction false} AbsErrorSumZeroIff(actual: seq<real>, forecast: seq<real>, k: nat)
    requires k <= |actual| && k <= |forecast|
    ensures AbsErrorSum(actual, forecast, k) == 0.0 <==> forall i :: 0 <= i < k ==> actual[i] == forecast[i]
  {
    if k > 0 {
      AbsErrorSumZeroIff(actual, forecast, k - 1);
    }
  }

  /** Agreement on the first k positions makes all three error sums zero. */
  lemma {:induction false} ExactForecastSums(actual: seq<real>, forecast: seq<real>, k: nat)
    requires k <= |actual| && k <= |forecast|
    requires forall i :: 0 <= i < k ==> actual[i] == forecast[i]
    ensures AbsErrorSum(actual, forecast, k) == 0.0
    ensures SqErrorSum(actual, forecast, k) == 0.0
    ensures PctErrorSum(actual, forecast, k) == 0.0
  {
    if k > 0 {
      ExactForecastSums(actual, forecast, k - 1);
    }
  }

  /** MAE is zero exactly when the forecast matches the actual values; then RMSE and MAPE are zero too. */
  lemma MaeZeroIff(actual: seq<real>, forecast: seq<real>, sqrt: real -> real)
    requires IsSqrt(sqrt) && 0 < Overlap(actual, forecast)
    ensures var n := Overlap(actual, forecast);
      AccuracyOf(actual, forecast, sqrt).mae == 0.0 <==> forall i :: 0 <= i < n ==> actual[i] == forecast[i]
    ensures var n := Overlap(actual, forecast);
      (forall i :: 0 <= i < n ==> actual[i] == forecast[i]) ==>
        AccuracyOf(actual, forecast, sqrt) == AccuracyMetrics(0.0, 0.0, 0.0)
  {
    var n := Overlap(actual, forecast);
    var sae := AbsErrorSum(actual, forecast, n);
    AbsErrorSumZeroIff(actual, forecast, n);
    assert sae / n as real * n as real == sae;
    if forall i :: 0 <= i < n ==> actual[i] == forecast[i] {
      ExactForecastSums(actual, forecast, n);
      SqrtOfZero(sqrt);
    }
  }

  /** Positions whose actual value is zero add nothing to the percentage sum. */
  lemma {:induction false} ZeroActualsPctSum(actual: seq<real>, forecast: seq<real>, k: nat)
    requires k <= |actual| && k <= |forecast|
    requires forall i :: 0 <= i < k ==> actual[i] == 0.0
    ensures PctErrorSum(actual, forecast, k) == 0.0
  {
    if k > 0 {
      ZeroActualsPctSum(actual, forecast, k - 1);
    }
  }

  /**
   * Zero actual values are still counted in the divisor: a zero actual value at
   * position k leaves the percentage sum as it was while the count grows.
   */
  lemma ZeroActualStillCounted(actual: seq<real>, forecast: seq<real>, k: nat)
    requires k < |actual| && k < |forecast| && actual[k] == 0.0
    ensures PctErrorSum(actual, forecast, k + 1) == PctErrorSum(actual, forecast, k)
    ensures AbsErrorSum(actual, forecast, k + 1) == AbsErrorSum(actual, forecast, k) + Abs(forecast[k])
  {
  }

  // ---------------------------------------------------------------------------
  // Residuals
  // ---------------------------------------------------------------------------

  datatype ResidualSummary = ResidualSummary(values: seq<real>, mean: real, variance: real)

  /** actual[i] - forecast[i] over the compared positions. */
  function ResidualValues(actual: seq<real>, forecast: seq<real>): (r: seq<real>)
    ensures |r| == Overlap(actual, forecast)
  {
    var n := Overlap(actual, forecast);
    seq(n, i requires 0 <= i < n => actual[i] - forecast[i])
  }

  /** The residual values with their mean and their (population) variance, which is never negative. */
  function ResidualsOf(actual: seq<real>, forecast: seq<real>): (r: ResidualSummary)
    requires 0 < Overlap(actual, forecast)
    ensures 0.0 <= r.variance
  {
    var v := ResidualValues(actual, forecast);
    var m := Mean(v);
    var ss := SqDevSum(v, m);
    DivideMonotone(0.0, ss, |v| as real);
    ResidualSummary(v, m, ss / |v| as real)
  }

  /** The residual part of `analyzeResiduals`: the push loop, the mean, and the variance loop. */
  method AnalyzeResiduals(actual: seq<real>, forecast: seq<real>) returns (r: ResidualSummary)
    requires 0 < Overlap(actual, forecast)
    ensures r == ResidualsOf(actual, forecast)
  {
    var n := if |actual| <= |forecast| then |actual| else |forecast|;
    var residuals: seq<real> := [];
    for i := 0 to n
      invariant residuals == seq(i, j requires 0 <= j < i => actual[j] - forecast[j])
    {
      residuals := residuals + [actual[i] - forecast[i]];
    }
    var mean := Sum(residuals) / n as real;
    var variance := 0.0;
    for i := 0 to n
      invariant variance == SqDevSum(residuals[..i], mean)
    {
      assert residuals[..i + 1][..i] == residuals[..i];
      variance := variance + (residuals[i] - mean) * (residuals[i] - mean);
    }
    assert residuals[..n] == residuals;
    variance := variance / n as real;
    r := ResidualSummary(residuals, mean, variance);
  }

  /** The residual mean is the mean of the actual values minus the mean of the forecast. */
  lemma ResidualMean(actual: seq<real>, forecast: seq<real>)
    requires 0 < Overlap(actual, forecast)
    ensures var n := Overlap(actual, forecast);
      ResidualsOf(actual, forecast).mean == Mean(actual[..n]) - Mean(forecast[..n])
  {
    var n := Overlap(actual, forecast);
    var v := ResidualValues(actual, forecast);
    SumOfDifferences(actual[..n], forecast[..n], v);
    var sa, sf, nn := Sum(actual[..n]), Sum(forecast[..n]), n as real;
    assert (sa - sf) / nn == sa / nn - sf / nn;
  }

  /** The residual variance is zero exactly when every residual equals the residual mean. */
  lemma ResidualVarianceZeroIff(actual: seq<real>, forecast: seq<real>)
    requires 0 < Overlap(actual, forecast)
    ensures var r := ResidualsOf(actual, forecast);
      r.variance == 0.0 <==> forall i :: 0 <= i < |r.values| ==> r.values[i] == r.mean
  {
    var r := ResidualsOf(actual, forecast);
    var ss := SqDevSum(r.values, r.mean);
    SqDevSumZeroIff(r.values, r.mean);
    assert ss / |r.values| as real * |r.values| as real == ss;
  }

  // ---------------------------------------------------------------------------
  // Descriptive statistics
  // ---------------------------------------------------------------------------

  predicate Sorted(s: seq<real>)
  {
    forall i, j :: 0 <= i < j < |s| ==> s[i] <= s[j]
  }

  /** Inserts x before the first element that is not smaller than it. */
  function Insert(x: real, s: seq<real>): (r: seq<real>)
    ensures |r| == |s| + 1
  {
    if |s| == 0 || x <= s[0] then [x] + s
    else [s[0]] + Insert(x, s[1..])
  }

  /** Inserting adds exactly the one element. */
  lemma {:induction false} InsertMultiset(x: real, s: seq<real>)
    ensures multiset(Insert(x, s)) == multiset(s) + multiset{x}
  {
    if |s| > 0 && s[0] < x {
      InsertMultiset(x, s[1..]);
      assert s == [s[0]] + s[1..];
      assert Insert(x, s) == [s[0]] + Insert(x, s[1..]);
    }
  }

  /** Inserting into a sorted sequence keeps it sorted. */
  lemma {:induction false} InsertSorted(x: real, s: seq<real>)
    requires Sorted(s)
    ensures Sorted(Insert(x, s))
  {
    if |s| > 0 && s[0] < x {
      var t := Insert(x, s[1..]);
      assert Sorted(t) by {
        InsertSorted(x, s[1..]);
      }
      assert multiset(t) == multiset(s[1..]) + multiset{x} by {
        InsertMultiset(x, s[1..]);
      }
      forall k | 0 <= k < |t|
        ensures s[0] <= t[k]
      {
        assert t[k] in multiset(t);
        if t[k] != x {
          assert t[k] in s[1..];
        }
      }
      assert Insert(x, s) == [s[0]] + t;
    }
  }

  /** `[...data].sort((a, b) => a - b)`: insertion of each element into the sorted rest. */
  function SortedCopy(s: seq<real>): (r: seq<real>)
    ensures |r| == |s|
  {
    if |s| == 0 then []
    else Insert(s[0], SortedCopy(s[1..]))
  }

  /** The copy is sorted ascending and holds the same elements as the data. */
  lemma {:induction false} SortedCopySpec(s: seq<real>)
    ensures Sorted(SortedCopy(s)) && multiset(SortedCopy(s)) == multiset(s)
  {
    if |s| > 0 {
      SortedCopySpec(s[1..]);
      InsertSorted(s[0], SortedCopy(s[1..]));
      InsertMultiset(s[0], SortedCopy(s[1..]));
      assert s == [s[0]] + s[1..];
    }
  }

  /** The middle element of the sorted copy, or the average of the two middle elements for even n. */
  function MedianOf(data: seq<real>): real
    requires |data| > 0
  {
    var s := SortedCopy(data);
    var n := |data|;
    if n % 2 == 0 then (s[n / 2 - 1] + s[n / 2]) / 2.0 else s[n / 2]
  }

  /** Every element of a rearrangement of `data` lies between the minimum and the maximum of `data`. */
  lemma PermutationBetweenMinMax(s: seq<real>, data: seq<real>)
    requires |data| > 0 && multiset(s) == multiset(data)
    ensures forall i :: 0 <= i < |s| ==> MinOf(data) <= s[i] <= MaxOf(data)
  {
    forall i | 0 <= i < |s|
      ensures MinOf(data) <= s[i] <= MaxOf(data)
    {
      assert s[i] in multiset(s);
      assert s[i] in data;
    }
  }

  /** The median lies between the minimum and the maximum. */
  lemma MedianBetweenMinMax(data: seq<real>)
    requires |data| > 0
    ensures MinOf(data) <= MedianOf(data) <= MaxOf(data)
  {
    SortedCopySpec(data);
    PermutationBetweenMinMax(SortedCopy(data), data);
  }

  /** Population standard deviation: a non-negative root of the mean squared deviation from the mean. */
  function StdOf(data: seq<real>, sqrt: real -> real): (std: real)
    requires IsSqrt(sqrt) && |data| > 0
    ensures 0.0 <= std && std * std == SqDevSum(data, Mean(data)) / |data| as real
  {
    var ss := SqDevSum(data, Mean(data));
    DivideMonotone(0.0, ss, |data| as real);
    sqrt(ss / |data| as real)
  }

  datatype Statistics = Statistics(mean: real, median: real, min: real, max: real, std: real)

  /**
   * `calculateStatistics`: mean, median, minimum, maximum and standard
   * deviation. Minimum, median and maximum are ordered and the mean lies
   * between minimum and maximum.
   */
  function StatisticsOf(data: seq<real>, sqrt: real -> real): (st: Statistics)
    requires IsSqrt(sqrt) && |data| > 0
    ensures st.min <= st.median <= st.max
    ensures st.min <= st.mean <= st.max
  {
    MedianBetweenMinMax(data);
    MeanBetweenMinMax(data);
    Statistics(Mean(data), MedianOf(data), MinOf(data), MaxOf(data), StdOf(data, sqrt))
  }

  /**
   * `calculateStatistics` with its squared-deviation loop (computed here before the
   * median, minimum and maximum, which do not depend on it); the input is left as it is.
   */
  method CalculateStatistics(data: seq<real>, sqrt: real -> real) returns (st: Statistics)
    requires IsSqrt(sqrt) && |data| > 0
    ensures st == StatisticsOf(data, sqrt)
  {
    var n := |data|;
    var mean := Sum(data) / n as real;
    var sumSquaredDiff := 0.0;
    for i := 0 to n
      invariant sumSquaredDiff == SqDevSum(data[..i], mean)
    {
      assert data[..i + 1][..i] == data[..i];
      sumSquaredDiff := sumSquaredDiff + (data[i] - mean) * (data[i] - mean);
    }
    assert data[..n] == data;
    var sortedData := SortedCopy(data);
    var median := if n % 2 == 0 then (sortedData[n / 2 - 1] + sortedData[n / 2]) / 2.0 else sortedData[n / 2];
    var min := MinOf(data);
    var max := MaxOf(data);
    assert mean == Mean(data) && median == MedianOf(data);
    var std := sqrt(sumSquaredDiff / n as real);
    assert std == StdOf(data, sqrt);
    st := Statistics(mean, median, min, max, std);
  }

  // ---------------------------------------------------------------------------
  // Trend
  // ---------------------------------------------------------------------------

  datatype TrendResult = TrendResult(hasTrend: bool, slope: Option<real>)

  /** The x values 0, 1, ..., n - 1 of the regression (`Array.from({ length: n }, (_, i) => i)`). */
  function Indices(n: nat): seq<real>
  {
    seq(n, i requires 0 <= i < n => i as real)
  }

  /** Sum of (i - mx)·(data[i] - my) over the first k points. */
  function SlopeNumerator(data: seq<real>, mx: real, my: real, k: nat): real
    requires k <= |data|
  {
    if k == 0 then 0.0
    else SlopeNumerator(data, mx, my, k - 1) + ((k - 1) as real - mx) * (data[k - 1] - my)
  }

  /** Sum of (i - mx)² over the first k points. */
  function SlopeDenominator(mx: real, k: nat): (s: real)
    ensures 0.0 <= s
  {
    if k == 0 then 0.0
    else
      var dx := (k - 1) as real - mx;
      SquareSign(dx);
      SlopeDenominator(mx, k - 1) + dx * dx
  }

  /** The trend threshold: one hundredth of the range, divided by the number of points. */
  function TrendThreshold(data: seq<real>): (t: real)
    requires |data| > 0
    ensures 0.0 <= t
  {
    assert MinOf(data) <= data[0] <= MaxOf(data);
    DivideMonotone(0.0, 0.01 * (MaxOf(data) - MinOf(data)), |data| as real);
    0.01 * (MaxOf(data) - MinOf(data)) / |data| as real
  }

  /** The least-squares slope of the data against 0..n-1, defined from two points on. */
  function LeastSquaresSlope(data: seq<real>): real
    requires 2 <= |data|
  {
    var n := |data|;
    var mx := Mean(Indices(n));
    DenominatorPositive(mx, n);
    Ratio(SlopeNumerator(data, mx, Mean(data), n), SlopeDenominator(mx, n))
  }

  /**
   * `detectTrend`: the least-squares slope of the data against 0..n-1, reported
   * when its magnitude exceeds the threshold. A zero denominator (at most one
   * point) makes the slope NaN in the source, and every comparison with NaN is
   * false, so there is no trend; a slope is reported exactly when there is a trend.
   */
  function TrendOf(data: seq<real>): (t: TrendResult)
    ensures t.slope.Some? <==> t.hasTrend
    ensures t.hasTrend ==> 2 <= |data| && t.slope == Some(LeastSquaresSlope(data))
    ensures 2 <= |data| ==> (t.hasTrend <==> Abs(LeastSquaresSlope(data)) > TrendThreshold(data))
  {
    var n := |data|;
    if n == 0 then TrendResult(false, None)
    else
      var mx := Mean(Indices(n));
      var my := Mean(data);
      var den := SlopeDenominator(mx, n);
      assert n == 1 ==> den == 0.0 by {
        if n == 1 {
          assert Indices(1)[..0] == [];
        }
      }
      assert 2 <= n ==> den != 0.0 by {
        if 2 <= n {
          DenominatorPositive(mx, n);
        }
      }
      if den == 0.0 then TrendResult(false, None)
      else
        var slope := Ratio(SlopeNumerator(data, mx, my, n), den);
        var hasTrend := Abs(slope) > TrendThreshold(data);
        TrendResult(hasTrend, if hasTrend then Some(slope) else None)
  }

  /** `detectTrend` with its accumulation loop. */
  method DetectTrend(data: seq<real>) returns (t: TrendResult)
    ensures t == TrendOf(data)
  {
    var n := |data|;
    if n == 0 {
      return TrendResult(false, None);
    }
    var x := Indices(n);
    var meanX := Sum(x) / n as real;
    var meanY := Sum(data) / n as real;
    var numerator := 0.0;
    var denominator := 0.0;
    for i := 0 to n
      invariant numerator == SlopeNumerator(data, meanX, meanY, i)
      invariant denominator == SlopeDenominator(meanX, i)
    {
      numerator := numerator + (x[i] - meanX) * (data[i] - meanY);
      denominator := denominator + (x[i] - meanX) * (x[i] - meanX);
    }
    if denominator == 0.0 {
      t := TrendResult(false, None);
    } else {
      var slope := numerator / denominator;
      var hasTrend := Abs(slope) > 0.01 * (MaxOf(data) - MinOf(data)) / n as real;
      t := TrendResult(hasTrend, if hasTrend then Some(slope) else None);
    }
  }

  /** The sum of a + b·x over a sequence of x values is n·a + b·(sum of the x values). */
  lemma {:induction false} SumOfAffine(xs: seq<real>, ys: seq<real>, a: real, b: real)
    requires |xs| == |ys|
    requires forall i :: 0 <= i < |ys| ==> ys[i] == a + b * xs[i]
    ensures Sum(ys) == |ys| as real * a + b * Sum(xs)
  {
    var n := |ys|;
    if n > 0 {
      SumOfAffine(xs[..n - 1], ys[..n - 1], a, b);
      var sx := Sum(xs[..n - 1]);
      assert Sum(ys) == (n - 1) as real * a + b * sx + (a + b * xs[n - 1]);
      assert (n - 1) as real * a + a == n as real * a;
      assert b * sx + b * xs[n - 1] == b * (sx + xs[n - 1]);
    }
  }

  /** One step of `NumeratorOfLine`: a point on the line adds b times its squared x-deviation. */
  lemma LineStep(data: seq<real>, a: real, b: real, mx: real, my: real, k: nat)
    requires 0 < k <= |data|
    requires data[k - 1] == a + b * (k - 1) as real && my == a + b * mx
    requires SlopeNumerator(data, mx, my, k - 1) == b * SlopeDenominator(mx, k - 1)
    ensures SlopeNumerator(data, mx, my, k) == b * SlopeDenominator(mx, k)
  {
    var dx := (k - 1) as real - mx;
    assert data[k - 1] - my == b * dx;
    assert dx * (b * dx) == b * (dx * dx);
  }

  /** For points on the line a + b·x, every numerator term is b times the matching denominator term. */
  lemma {:induction false} NumeratorOfLine(data: seq<real>, a: real, b: real, mx: real, my: real, k: nat)
    requires k <= |data|
    requires forall i :: 0 <= i < |data| ==> data[i] == a + b * i as real
    requires my == a + b * mx
    ensures SlopeNumerator(data, mx, my, k) == b * SlopeDenominator(mx, k)
  {
    if k > 0 {
      NumeratorOfLine(data, a, b, mx, my, k - 1);
      LineStep(data, a, b, mx, my, k);
    }
  }

  /** The denominator only grows with more points. */
  lemma {:induction false} DenominatorGrows(mx: real, j: nat, k: nat)
    requires j <= k
    ensures SlopeDenominator(mx, j) <= SlopeDenominator(mx, k)
    decreases k
  {
    if j < k {
      DenominatorGrows(mx, j, k - 1);
      var dx := (k - 1) as real - mx;
      SquareSign(dx);
      assert SlopeDenominator(mx, k) == SlopeDenominator(mx, k - 1) + dx * dx;
    }
  }

  /** Two or more points give a positive denominator: the first two x values cannot both equal the mean. */
  lemma DenominatorPositive(mx: real, n: nat)
    requires 2 <= n
    ensures 0.0 < SlopeDenominator(mx, n)
  {
    DenominatorGrows(mx, 2, n);
    SquareSign(0.0 - mx);
    SquareSign(1.0 - mx);
  }

  /** The mean of points on the line a + b·x is a + b times the mean x value. */
  lemma MeanOfLine(data: seq<real>, a: real, b: real)
    requires 0 < |data|
    requires forall i :: 0 <= i < |data| ==> data[i] == a + b * i as real
    ensures Mean(data) == a + b * Mean(Indices(|data|))
  {
    var xs := Indices(|data|);
    var nn, sx := |data| as real, Sum(xs);
    assert Sum(data) == nn * a + b * sx by {
      SumOfAffine(xs, data, a, b);
    }
    AffineQuotient(a, b, sx, nn);
  }

  /** For points on the line a + b·x, with the mean y value on the line at the mean x value, the slope is b. */
  lemma SlopeOfLineAtMeans(data: seq<real>, a: real, b: real, mx: real, my: real)
    requires 2 <= |data|
    requires forall i :: 0 <= i < |data| ==> data[i] == a + b * i as real
    requires my == a + b * mx
    ensures 0.0 < SlopeDenominator(mx, |data|)
    ensures Ratio(SlopeNumerator(data, mx, my, |data|), SlopeDenominator(mx, |data|)) == b
  {
    NumeratorOfLine(data, a, b, mx, my, |data|);
    DenominatorPositive(mx, |data|);
    QuotientOfMultiple(SlopeNumerator(data, mx, my, |data|), SlopeDenominator(mx, |data|), b);
  }

  /** Points on the line a + b·x, two or more of them, have least-squares slope b. */
  lemma SlopeOfLine(data: seq<real>, a: real, b: real)
    requires 2 <= |data|
    requires forall i :: 0 <= i < |data| ==> data[i] == a + b * i as real
    ensures var n := |data|; var mx := Mean(Indices(n));
      SlopeDenominator(mx, n) != 0.0 &&
      Ratio(SlopeNumerator(data, mx, Mean(data), n), SlopeDenominator(mx, n)) == b
  {
    var mx, my := Mean(Indices(|data|)), Mean(data);
    assert my == a + b * mx by {
      MeanOfLine(data, a, b);
    }
    SlopeOfLineAtMeans(data, a, b, mx, my);
  }

  /** A constant series has no trend. */
  lemma ConstantSeriesNoTrend(data: seq<real>, c: real)
    requires forall i :: 0 <= i < |data| ==> data[i] == c
    ensures !TrendOf(data).hasTrend
  {
    if 2 <= |data| {
      SlopeOfLine(data, c, 0.0);
      assert MaxOf(data) == c && MinOf(data) == c;
    }
  }

  /** Every point of the line a + b·x over 0..n-1 lies within |b|·(n - 1) of a. */
  lemma LineWithinBand(data: seq<real>, a: real, b: real)
    requires forall i :: 0 <= i < |data| ==> data[i] == a + b * i as real
    ensures forall i :: 0 <= i < |data| ==>
      a - Abs(b) * (|data| - 1) as real <= data[i] <= a + Abs(b) * (|data| - 1) as real
  {
    forall i | 0 <= i < |data|
      ensures a - Abs(b) * (|data| - 1) as real <= data[i] <= a + Abs(b) * (|data| - 1) as real
    {
      var w := Abs(b) * (|data| - 1) as real;
      assert w - Abs(b) * i as real == Abs(b) * (|data| - 1 - i) as real;
      assert 0.0 <= Abs(b) * (|data| - 1 - i) as real;
      assert b * i as real == Abs(b) * i as real || b * i as real == -(Abs(b) * i as real);
      assert 0.0 <= Abs(b) * i as real;
    }
  }

  /** The range of the line a + b·x over 0..n-1 is at most 2·|b|·(n - 1). */
  lemma RangeOfLine(data: seq<real>, a: real, b: real)
    requires 0 < |data|
    requires forall i :: 0 <= i < |data| ==> data[i] == a + b * i as real
    ensures MaxOf(data) - MinOf(data) <= 2.0 * (Abs(b) * (|data| - 1) as real)
  {
    LineWithinBand(data, a, b);
  }

  /** A range of at most 2·ab·(n - 1) gives a threshold below ab. */
  lemma ThresholdBelowSlope(range: real, ab: real, n: nat)
    requires 0.0 < ab && 1 <= n && range <= 2.0 * (ab * (n - 1) as real)
    ensures 0.01 * range / n as real < ab
  {
    var nn := n as real;
    assert ab * nn - 0.02 * (ab * (n - 1) as real) == ab * (nn - 0.02 * (n - 1) as real);
    assert 0.0 < ab * (nn - 0.02 * (n - 1) as real);
    var t := 0.01 * range / nn;
    assert t * nn == 0.01 * range;
  }

  /** A line with non-zero slope b has a threshold below |b|. */
  lemma LineThresholdBelowSlope(data: seq<real>, a: real, b: real)
    requires 2 <= |data| && b != 0.0
    requires forall i :: 0 <= i < |data| ==> data[i] == a + b * i as real
    ensures TrendThreshold(data) < Abs(b)
  {
    var range := MaxOf(data) - MinOf(data);
    assert range <= 2.0 * (Abs(b) * (|data| - 1) as real) by {
      RangeOfLine(data, a, b);
    }
    ThresholdBelowSlope(range, Abs(b), |data|);
  }

  /** Points on a line with non-zero slope b, two or more of them, have a trend, reported with slope b. */
  lemma SlopedLineHasTrend(data: seq<real>, a: real, b: real)
    requires 2 <= |data| && b != 0.0
    requires forall i :: 0 <= i < |data| ==> data[i] == a + b * i as real
    ensures TrendOf(data) == TrendResult(true, Some(b))
  {
    var n := |data|;
    var mx, my := Mean(Indices(n)), Mean(data);
    var num, den := SlopeNumerator(data, mx, my, n), SlopeDenominator(mx, n);
    assert den != 0.0 && Ratio(num, den) == b by {
      SlopeOfLine(data, a, b);
    }
    assert TrendThreshold(data) < Abs(b) by {
      LineThresholdBelowSlope(data, a, b);
    }
  }

  // ---------------------------------------------------------------------------
  // Seasonality
  // ---------------------------------------------------------------------------

  /** `Math.min(50, Math.floor(n / 4))`: the number of lags examined. */
  function MaxLag(n: nat): (m: nat)
    ensures m <= 50 && 4 * m <= n
    ensures m == 50 || n < 4 * m + 4
  {
    if 50 <= n / 4 then 50 else n / 4
  }

  /**
   * A peak of the autocorrelations: an inner index (neither the first nor the
   * last) above 0.2 and strictly above both neighbours.
   */
  predicate IsPeak(ac: seq<real>, i: int)
  {
    1 <= i && i + 1 < |ac| && ac[i] > 0.2 && ac[i] > ac[i - 1] && ac[i] > ac[i + 1]
  }

  datatype Peak = Peak(maxAutocorr: real, period: Option<nat>)

  /** The peak loop over the candidates 1 <= i < k: a peak replaces the best so far only when strictly higher. */
  function PeakSearch(ac: seq<real>, k: nat): Peak
  {
    if k <= 1 then Peak(0.0, None)
    else
      var p := PeakSearch(ac, k - 1);
      var i := k - 1;
      if i + 1 < |ac| && ac[i] > 0.2 && ac[i] > ac[i - 1] && ac[i] > ac[i + 1] && ac[i] > p.maxAutocorr
      then Peak(ac[i], Some(i + 1))
      else p
  }

  /**
   * The search finds no period exactly when no candidate is a peak (and then the
   * maximum stays 0); otherwise the period is i + 1 for a peak i whose value is
   * the maximum, at least every other peak's and strictly above every earlier
   * peak's, so on ties the earliest peak wins.
   */
  lemma {:induction false} PeakSearchSpec(ac: seq<real>, k: nat)
    ensures var p := PeakSearch(ac, k);
      (p.period.None? <==> forall i :: 0 <= i < k ==> !IsPeak(ac, i)) &&
      (p.period.None? ==> p.maxAutocorr == 0.0) &&
      (p.period.Some? ==>
        var i := p.period.value - 1;
        i < k && IsPeak(ac, i) && p.maxAutocorr == ac[i] &&
        (forall j :: 0 <= j < k && IsPeak(ac, j) ==> ac[j] <= ac[i]) &&
        (forall j :: 0 <= j < i && IsPeak(ac, j) ==> ac[j] < ac[i]))
  {
    if k > 1 {
      PeakSearchSpec(ac, k - 1);
      var prev := PeakSearch(ac, k - 1);
      var c := k - 1;
      assert !IsPeak(ac, 0);
      if IsPeak(ac, c) && ac[c] > prev.maxAutocorr {
        assert PeakSearch(ac, k) == Peak(ac[c], Some(c + 1));
      } else {
        assert PeakSearch(ac, k) == prev;
        if IsPeak(ac, c) {
          assert prev.period.Some?;
        }
      }
    }
  }

  datatype SeasonalityResult = SeasonalityResult(hasSeasonality: bool, period: Option<nat>)

  /** `detectSeasonality` given its autocorrelations: seasonal when the best peak exceeds 0.3. */
  function SeasonalityOf(ac: seq<real>): (s: SeasonalityResult)
    ensures s.hasSeasonality ==> s.period.Some?
    ensures s.period.Some? ==> 2 <= s.period.value < |ac| && IsPeak(ac, s.period.value - 1)
    ensures s.hasSeasonality <==> s.period.Some? && ac[s.period.value - 1] > 0.3
  {
    var p := PeakSearch(ac, |ac|);
    PeakSearchSpec(ac, |ac|);
    SeasonalityResult(p.maxAutocorr > 0.3, p.period)
  }

  /**
   * The peak search of `detectSeasonality` over autocorrelations for lags
   * 1..maxLag, which are an input here.
   */
  method DetectSeasonality(data: seq<real>, autocorrelations: seq<real>) returns (s: SeasonalityResult)
    requires |autocorrelations| == MaxLag(|data|)
    ensures s == SeasonalityOf(autocorrelations)
    ensures s.period.Some? ==> 2 <= s.period.value <= 49
  {
    var ac := autocorrelations;
    var maxAutocorr := 0.0;
    var period: Option<nat> := None;
    var i := 1;
    while i < |ac| - 1
      invariant 1 <= i && (2 <= |ac| ==> i <= |ac| - 1) && (|ac| < 2 ==> i == 1)
      invariant Peak(maxAutocorr, period) == PeakSearch(ac, i)
    {
      if ac[i] > 0.2 && ac[i] > ac[i - 1] && ac[i] > ac[i + 1] && ac[i] > maxAutocorr {
        maxAutocorr := ac[i];
        period := Some(i + 1);
      }
      i := i + 1;
    }
    if 2 <= |ac| {
      assert i == |ac| - 1;
      assert PeakSearch(ac, |ac|) == PeakSearch(ac, |ac| - 1);
    } else {
      assert PeakSearch(ac, 1) == PeakSearch(ac, |ac|);
    }
    s := SeasonalityResult(maxAutocorr > 0.3, period);
  }

  // ---------------------------------------------------------------------------
  // analyzeTimeSeries
  // ---------------------------------------------------------------------------

  datatype TimeSeriesAnalysisResult = TimeSeriesAnalysisResult(
    data: seq<real>,
    trainingData: seq<real>,
    testingData: seq<real>,
    trend: TrendResult,
    seasonality: SeasonalityResult,
    statistics: Statistics,
    forecast: SmoothingResult,
    accuracy: AccuracyMetrics,
    residuals: ResidualSummary,
    modelParams: ModelParameters)

  /**
   * The values compared with the testing part are the first |testing| entries
   * of the predictions: fitted levels of the training part, never horizon values.
   */
  lemma ForecastSliceIsFitted(data: seq<real>, sqrt: real -> real)
    requires IsSqrt(sqrt) && 2 <= |data|
    ensures var s := SplitData(data);
      0 < |s.testing| <= |s.training| &&
      SmoothingOf(s.training, |s.testing| + 10, sqrt).predictions[..|s.testing|] == Fitted(s.training)[..|s.testing|]
  {
    var s := SplitData(data);
    SplitShape(data);
    var p := SmoothingOf(s.training, |s.testing| + 10, sqrt).predictions;
    assert p[..|s.testing|] == p[..|s.training|][..|s.testing|];
  }

  /**
   * `analyzeTimeSeries` on a series of at least two points, with the
   * seasonality autocorrelations supplied. The forecast is fitted on the
   * training part with horizon |testing| + 10, and accuracy and residuals
   * compare the testing part with the first |testing| fitted training levels.
   */
  method AnalyzeTimeSeries(data: seq<real>, autocorrelations: seq<real>, sqrt: real -> real)
    returns (res: TimeSeriesAnalysisResult)
    requires IsSqrt(sqrt) && 2 <= |data|
    requires |autocorrelations| == MaxLag(|data|)
    ensures res.data == data
    ensures res.trainingData + res.testingData == data && |res.trainingData| == SplitIndex(|data|)
    ensures 0 < |res.testingData| <= |res.trainingData|
    ensures res.trend == TrendOf(data)
    ensures res.seasonality == SeasonalityOf(autocorrelations)
    ensures res.statistics == StatisticsOf(data, sqrt)
    ensures res.forecast == SmoothingOf(res.trainingData, |res.testingData| + 10, sqrt)
    ensures res.accuracy == AccuracyOf(res.testingData, Fitted(res.trainingData)[..|res.testingData|], sqrt)
    ensures res.residuals == ResidualsOf(res.testingData, Fitted(res.trainingData)[..|res.testingData|])
    ensures res.modelParams == ModelParamsFor(res.trend.hasTrend, res.seasonality.hasSeasonality)
  {
    var splitIndex := SplitIndex(|data|);
    var trainingData := data[..splitIndex];
    var testingData := data[splitIndex..];
    ForecastSliceIsFitted(data, sqrt);
    var trend := DetectTrend(data);
    var seasonality := DetectSeasonality(data, autocorrelations);
    var statistics := CalculateStatistics(data, sqrt);
    var forecast := PerformExponentialSmoothing(trainingData, |testingData| + 10, sqrt);
    var compared := forecast.predictions[..|testingData|];
    var accuracy := CalculateAccuracy(testingData, compared, sqrt);
    var residuals := AnalyzeResiduals(testingData, compared);
    res := TimeSeriesAnalysisResult(
      data, trainingData, testingData, trend, seasonality, statistics, forecast, accuracy, residuals,
      ModelParamsFor(trend.hasTrend, seasonality.hasSeasonality));
  }
}
