/**
 * The drift detector of ai_models/anomaly_detector.py: compares the mean of
 * the last `window` values of one metric column with a longer trailing mean
 * (the last 3 * window values, or the whole column when it is shorter than
 * that). The column is a sequence of reals, most recent last.
 */
module AnomalyDetector {
  import opened Wrappers

  function Sum(values: seq<real>): real {
    if |values| == 0 then 0.0 else values[0] + Sum(values[1..])
  }

  /** Arithmetic mean of a non-empty sequence: pandas `Series.mean()`. */
  function Mean(values: seq<real>): (mean: real)
    requires |values| > 0
    ensures mean * (|values| as real) == Sum(values)
  {
    Sum(values) / (|values| as real)
  }

  /** The last `count` values: the window of a trailing rolling mean. */
  function Trailing(values: seq<real>, count: nat): (tail: seq<real>)
    requires count <= |values|
    ensures |tail| == count
    ensures forall i :: 0 <= i < count ==> tail[i] == values[|values| - count + i]
  {
    values[|values| - count..]
  }

  function Abs(x: real): (r: real)
    ensures r >= 0.0 && (r == x || r == -x)
  {
    if x < 0.0 then -x else x
  }

  /** Number of values the baseline mean covers. */
  function BaselineLength(length: nat, window: nat): (n: nat)
    requires 1 <= window <= length
    ensures window <= n <= length
    ensures n == 3 * window || (n == length && length < 3 * window)
  {
    if length >= 3 * window then 3 * window else length
  }

  /** `rolling(window).mean().iloc[-1]` */
  function RecentMean(values: seq<real>, window: nat): (mean: real)
    requires 1 <= window <= |values|
    ensures mean * (window as real) == Sum(values[|values| - window..])
  {
    Mean(Trailing(values, window))
  }

  /** The `rolling(3 * window)` mean, or the whole-column mean for a shorter column. */
  function BaselineMean(values: seq<real>, window: nat): (mean: real)
    requires 1 <= window <= |values|
    ensures |values| >= 3 * window ==> mean * (3 * window) as real == Sum(values[|values| - 3 * window..])
    ensures |values| < 3 * window ==> mean == Mean(values)
  {
    Mean(Trailing(values, BaselineLength(|values|, window)))
  }

  datatype Drift = Drift(anomaly: bool, delta: real)

  /**
   * `detect_drift`: None while the column is shorter than the window;
   * otherwise the signed difference of the two means and whether its
   * magnitude strictly exceeds the threshold.
   */
  function DetectDrift(values: seq<real>, window: nat, threshold: real): (result: Option<Drift>)
    requires window >= 1
    ensures result.None? <==> |values| < window
    ensures result.Some? ==> result.value.delta == RecentMean(values, window) - BaselineMean(values, window)
    ensures result.Some? ==> (result.value.anomaly <==> Abs(result.value.delta) > threshold)
  {
    if |values| < window then None
    else
      var delta := RecentMean(values, window) - BaselineMean(values, window);
      if Abs(delta) > threshold then Some(Drift(true, delta)) else Some(Drift(false, delta))
  }

  // ---------------------------------------------------------------------------
  // Properties
  // ---------------------------------------------------------------------------

  lemma {:induction false} SumConcat(a: seq<real>, b: seq<real>)
    ensures Sum(a + b) == Sum(a) + Sum(b)
  {
    if |a| > 0 {
      assert (a + b)[1..] == a[1..] + b;
      SumConcat(a[1..], b);
    } else {
      assert a + b == b;
    }
  }

  lemma {:induction false} SumConstant(values: seq<real>, c: real)
    requires forall i :: 0 <= i < |values| ==> values[i] == c
    ensures Sum(values) == (|values| as real) * c
  {
    if |values| > 0 {
      SumConstant(values[1..], c);
    }
  }

  lemma MeanConstant(values: seq<real>, c: real)
    requires |values| > 0
    requires forall i :: 0 <= i < |values| ==> values[i] == c
    ensures Mean(values) == c
  {
    SumConstant(values, c);
  }

  /** A column holding one value throughout never drifts, for any threshold >= 0. */
  lemma ConstantHistoryNoDrift(values: seq<real>, c: real, window: nat, threshold: real)
    requires window >= 1 && |values| >= window && threshold >= 0.0
    requires forall i :: 0 <= i < |values| ==> values[i] == c
    ensures DetectDrift(values, window, threshold) == Some(Drift(false, 0.0))
  {
    MeanConstant(Trailing(values, window), c);
    MeanConstant(Trailing(values, BaselineLength(|values|, window)), c);
  }

  /** With exactly `window` values both means cover the whole column. */
  lemma FullWindowNoDrift(values: seq<real>, window: nat, threshold: real)
    requires window >= 1 && |values| == window && threshold >= 0.0
    ensures DetectDrift(values, window, threshold) == Some(Drift(false, 0.0))
  {
  }

  /** Real arithmetic behind DeltaAgainstEarlierPart, on the sums and counts of the two parts. */
  lemma MeanOfTwoParts(recentSum: real, earlierSum: real, recentCount: real, earlierCount: real)
    requires recentCount > 0.0 && earlierCount > 0.0
    ensures recentSum / recentCount - (earlierSum + recentSum) / (earlierCount + recentCount)
            == (earlierCount / (earlierCount + recentCount)) * (recentSum / recentCount - earlierSum / earlierCount)
  {
  }

  /**
   * The baseline window contains the recent window as its suffix, so the
   * delta is the difference between the recent mean and the mean of the
   * earlier part of the baseline window, scaled down by the share of the
   * baseline that part covers. In particular the delta has the sign of that
   * difference and is no larger in magnitude.
   */
  lemma DeltaAgainstEarlierPart(values: seq<real>, window: nat)
    requires 1 <= window < |values|
    ensures var n := BaselineLength(|values|, window);
            var earlier := values[|values| - n..|values| - window];
            RecentMean(values, window) - BaselineMean(values, window)
            == ((n - window) as real / n as real) * (RecentMean(values, window) - Mean(earlier))
  {
    var n := BaselineLength(|values|, window);
    var base := Trailing(values, n);
    var earlier := values[|values| - n..|values| - window];
    var recent := Trailing(values, window);
    assert base == earlier + recent;
    SumConcat(earlier, recent);
    assert |earlier| == n - window && |recent| == window;
    var w, e := window as real, (n - window) as real;
    assert n as real == e + w;
    assert RecentMean(values, window) == Sum(recent) / w;
    assert BaselineMean(values, window) == (Sum(earlier) + Sum(recent)) / (e + w);
    assert Mean(earlier) == Sum(earlier) / e;
    MeanOfTwoParts(Sum(recent), Sum(earlier), w, e);
  }
}
