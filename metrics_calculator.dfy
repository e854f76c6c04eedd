/**
 * Breathing metrics from the detected peaks and the sample buffer
 * (apps/backend/src/processing/metrics-calculator.ts). Math.round is floor(x + 1/2) on exact
 * reals, and Math.sqrt is a parameter: the model assumes nothing about it.
 */
module Metrics {
  import opened Ordering
  import opened Domain
  import opened PeakDetection
  import BackendConfig

  datatype BreathingMetrics = BreathingMetrics(breathingRate: real, breathLengthMs: int, variability: real, breathDepth: int)

  /** Math.round on an exact real: halves go up. */
  function Round(x: real): (n: int)
    ensures x - 0.5 < n as real <= x + 0.5
  {
    (x + 0.5).Floor
  }

  lemma RoundMonotone(x: real, y: real)
    requires x <= y
    ensures Round(x) <= Round(y)
  {
  }

  lemma RoundOfInt(n: int)
    ensures Round(n as real) == n
  {
  }

  /** Peak times in ascending order: what every metric below reads after sorting a copy. */
  function PeakTimes(peaks: seq<Peak>): (t: seq<int>)
    ensures |t| == |peaks|
  {
    Keys(SortBy(peaks, PeakTime), PeakTime)
  }

  /** The first sorted time is the earliest peak and the last one the latest. */
  lemma PeakTimesEnds(peaks: seq<Peak>)
    requires |peaks| > 0
    ensures var t := PeakTimes(peaks);
      && (forall k :: 0 <= k < |peaks| ==> t[0] <= peaks[k].timestamp <= t[|t| - 1])
      && (exists k :: 0 <= k < |peaks| && peaks[k].timestamp == t[0])
      && (exists k :: 0 <= k < |peaks| && peaks[k].timestamp == t[|t| - 1])
  {
    var s := SortBy(peaks, PeakTime);
    SortedEnds(peaks, s, PeakTime);
    var t := PeakTimes(peaks);
    assert t[0] == PeakTime(s[0]) && t[|t| - 1] == PeakTime(s[|s| - 1]);
    forall k | 0 <= k < |peaks|
      ensures t[0] <= peaks[k].timestamp <= t[|t| - 1]
    {
      assert PeakTime(peaks[k]) == peaks[k].timestamp;
    }
    var a :| 0 <= a < |peaks| && PeakTime(peaks[a]) == PeakTime(s[0]);
    var b :| 0 <= b < |peaks| && PeakTime(peaks[b]) == PeakTime(s[|s| - 1]);
    assert peaks[a].timestamp == t[0] && peaks[b].timestamp == t[|t| - 1];
  }

  function Clamp(x: real, lo: real, hi: real): (r: real)
    requires lo <= hi
    ensures lo <= r <= hi
    ensures lo <= x <= hi ==> r == x
  {
    RealMin(RealMax(x, lo), hi)
  }

  /** The rate the ascending peak times give: (n - 1) over the first-to-last span, per minute, clamped. */
  function RateOfTimes(t: seq<int>): (rate: real)
    ensures 0.0 <= rate <= BackendConfig.MaxBreathingRate
    ensures |t| < 2 ==> rate == 0.0
    ensures |t| >= 2 && t[|t| - 1] - t[0] <= 0 ==> rate == 0.0
    ensures |t| >= 2 && t[|t| - 1] - t[0] > 0 ==>
      rate == Clamp((|t| - 1) as real / (t[|t| - 1] - t[0]) as real * 60.0, 0.0, BackendConfig.MaxBreathingRate)
  {
    if |t| < 2 then 0.0
    else
      var timeSpanSeconds := t[|t| - 1] - t[0];
      if timeSpanSeconds <= 0 then 0.0
      else
        var rate := (|t| - 1) as real / timeSpanSeconds as real * 60.0;
        RealMin(RealMax(rate, 0.0), BackendConfig.MaxBreathingRate)
  }

  /** calculateBreathingRate: sort a copy, then rate the times. The window argument is unused. */
  function BreathingRate(peaks: seq<Peak>, timeWindowSeconds: real): (rate: real)
    ensures 0.0 <= rate <= BackendConfig.MaxBreathingRate
    ensures |peaks| < 2 ==> rate == 0.0
  {
    RateOfTimes(PeakTimes(peaks))
  }

  /** Consecutive gaps between ascending times, in milliseconds. */
  function IntervalsMs(times: seq<int>): (r: seq<int>)
    requires |times| >= 1
    ensures |r| == |times| - 1
  {
    seq(|times| - 1, i requires 0 <= i < |times| - 1 => (times[i + 1] - times[i]) * 1000)
  }

  function IntSum(s: seq<int>): int {
    if s == [] then 0 else IntSum(s[..|s| - 1]) + s[|s| - 1]
  }

  /** The gaps add up to the whole span. */
  lemma {:induction false} IntervalsTelescope(times: seq<int>)
    requires |times| >= 1
    ensures IntSum(IntervalsMs(times)) == (times[|times| - 1] - times[0]) * 1000
  {
    if |times| > 1 {
      var n := |times|;
      IntervalsTelescope(times[..n - 1]);
      assert IntervalsMs(times)[..n - 2] == IntervalsMs(times[..n - 1]);
    }
  }

  /** The interval-building loop shared by calculateAverageBreathLength and calculateVariability. */
  method BuildIntervals(sorted: seq<Peak>) returns (intervals: seq<int>)
    requires |sorted| >= 1
    ensures intervals == IntervalsMs(Keys(sorted, PeakTime))
  {
    intervals := [];
    for i := 1 to |sorted|
      invariant |intervals| == i - 1
      invariant forall k :: 0 <= k < i - 1 ==> intervals[k] == (sorted[k + 1].timestamp - sorted[k].timestamp) * 1000
    {
      intervals := intervals + [(sorted[i].timestamp - sorted[i - 1].timestamp) * 1000];
    }
    ghost var t := Keys(sorted, PeakTime);
    assert forall k :: 0 <= k < |intervals| ==> intervals[k] == IntervalsMs(t)[k];
  }

  /** The average breath length the source promises: the span from first to last peak, in ms, over n - 1. */
  function MeanLengthOfTimes(t: seq<int>): int {
    if |t| < 2 then 0 else Round(((t[|t| - 1] - t[0]) * 1000) as real / (|t| - 1) as real)
  }

  function MeanBreathLengthMs(peaks: seq<Peak>): (ms: int)
    ensures |peaks| < 2 ==> ms == 0
    ensures ms >= 0
  {
    if |peaks| >= 2 then PeakTimesEnds(peaks); MeanLengthOfTimes(PeakTimes(peaks))
    else MeanLengthOfTimes(PeakTimes(peaks))
  }

  /** calculateAverageBreathLength: the rounded mean of the consecutive gaps. */
  method AverageBreathLength(peaks: seq<Peak>) returns (ms: int)
    ensures ms == MeanBreathLengthMs(peaks)
    ensures |peaks| < 2 ==> ms == 0
  {
    if |peaks| < 2 {
      return 0;
    }
    var sorted := SortBy(peaks, PeakTime);
    var intervals := BuildIntervals(sorted);
    IntervalsTelescope(Keys(sorted, PeakTime));
    var sum := IntSum(intervals);
    return Round(sum as real / |intervals| as real);
  }

  function Mean(s: seq<int>): real
    requires |s| > 0
  {
    IntSum(s) as real / |s| as real
  }

  function SumSquaredDiffs(s: seq<int>, mean: real): (r: real)
    ensures r >= 0.0
  {
    if s == [] then 0.0 else SumSquaredDiffs(s[..|s| - 1], mean) + (s[|s| - 1] as real - mean) * (s[|s| - 1] as real - mean)
  }

  /** The coefficient of variation of the intervals, clamped to [0, 1]; 0 when the mean is 0. */
  function CoefficientOfVariation(intervals: seq<int>, sqrt: real -> real): (cv: real)
    requires |intervals| > 0
    ensures 0.0 <= cv <= 1.0
  {
    var mean := Mean(intervals);
    if mean == 0.0 then 0.0
    else
      var variance := SumSquaredDiffs(intervals, mean) / |intervals| as real;
      Clamp(sqrt(variance) / mean, 0.0, 1.0)
  }

  /** What calculateVariability promises: 0 below 3 peaks, else the clamped coefficient of variation. */
  function VariabilityOf(peaks: seq<Peak>, sqrt: real -> real): (v: real)
    ensures 0.0 <= v <= 1.0
    ensures |peaks| < 3 ==> v == 0.0
  {
    if |peaks| < 3 then 0.0 else CoefficientOfVariation(IntervalsMs(PeakTimes(peaks)), sqrt)
  }

  /** A span of zero (all peaks at one time) gives variability 0. */
  lemma ZeroSpanZeroVariability(peaks: seq<Peak>, sqrt: real -> real)
    requires |peaks| >= 3 && PeakTimes(peaks)[|peaks| - 1] == PeakTimes(peaks)[0]
    ensures VariabilityOf(peaks, sqrt) == 0.0
  {
    IntervalsTelescope(PeakTimes(peaks));
  }

  lemma {:induction false} ConstantSum(s: seq<int>, c: int)
    requires forall k :: 0 <= k < |s| ==> s[k] == c
    ensures IntSum(s) == |s| * c
    ensures SumSquaredDiffs(s, c as real) == 0.0
  {
    if s != [] {
      ConstantSum(s[..|s| - 1], c);
    }
  }

  /** Perfectly regular breathing (all gaps equal) has variability 0 whenever sqrt(0) = 0. */
  lemma RegularBreathingZeroVariability(intervals: seq<int>, c: int, sqrt: real -> real)
    requires |intervals| > 0 && forall k :: 0 <= k < |intervals| ==> intervals[k] == c
    requires sqrt(0.0) == 0.0
    ensures CoefficientOfVariation(intervals, sqrt) == 0.0
  {
    ConstantSum(intervals, c);
    var n := |intervals| as real;
    assert IntSum(intervals) as real == n * c as real;
    assert Mean(intervals) == c as real;
  }

  /** calculateVariability: build the gaps, take mean, variance, standard deviation and their ratio. */
  method Variability(peaks: seq<Peak>, sqrt: real -> real) returns (v: real)
    ensures v == VariabilityOf(peaks, sqrt)
  {
    if |peaks| < 3 {
      return 0.0;
    }
    var sorted := SortBy(peaks, PeakTime);
    var intervals := BuildIntervals(sorted);
    var mean := IntSum(intervals) as real / |intervals| as real;
    if mean == 0.0 {
      return 0.0;
    }
    var variance := SumSquaredDiffs(intervals, mean) / |intervals| as real;
    var stdDev := sqrt(variance);
    var cv := stdDev / mean;
    return RealMin(RealMax(cv, 0.0), 1.0);
  }

  function IntMin(s: seq<int>): (m: int)
    requires |s| > 0
    ensures forall k :: 0 <= k < |s| ==> m <= s[k]
  {
    if |s| == 1 then s[0] else var r := IntMin(s[1..]); if s[0] <= r then s[0] else r
  }

  function IntMax(s: seq<int>): (m: int)
    requires |s| > 0
    ensures forall k :: 0 <= k < |s| ==> s[k] <= m
  {
    if |s| == 1 then s[0] else var r := IntMax(s[1..]); if s[0] >= r then s[0] else r
  }

  function RawInts(samples: seq<RawBreathSample>): (r: seq<int>)
    ensures |r| == |samples|
  {
    seq(|samples|, i requires 0 <= i < |samples| => samples[i].rawValue)
  }

  /** The spread of raw values in the buffer. */
  function Range(samples: seq<RawBreathSample>): (r: int)
    requires |samples| > 0
    ensures r >= 0
  {
    IntMax(RawInts(samples)) - IntMin(RawInts(samples))
  }

  function AverageProminence(peaks: seq<Peak>): real
    requires |peaks| > 0
  {
    ProminenceSum(peaks) / |peaks| as real
  }

  function ProminenceSum(peaks: seq<Peak>): real {
    if peaks == [] then 0.0 else ProminenceSum(peaks[..|peaks| - 1]) + peaks[|peaks| - 1].prominence
  }

  /** calculateBreathDepth: 0 below 10 samples; the raw range, or twice the mean prominence when that is larger. */
  function BreathDepth(samples: seq<RawBreathSample>, peaks: seq<Peak>): (depth: int)
    ensures |samples| < 10 ==> depth == 0
    ensures |samples| >= 10 ==> depth >= Range(samples)
    ensures |samples| >= 10 && |peaks| < 2 ==> depth == Range(samples)
    ensures |samples| >= 10 && |peaks| >= 2 ==> depth >= Round(2.0 * AverageProminence(peaks))
    ensures |samples| >= 10 && |peaks| >= 2 ==>
      depth == (if Range(samples) >= Round(2.0 * AverageProminence(peaks)) then Range(samples) else Round(2.0 * AverageProminence(peaks)))
  {
    if |samples| < 10 then 0
    else
      var range := Range(samples);
      if |peaks| >= 2 then
        var avgProminence := AverageProminence(peaks);
        var depth := Round(RealMax(range as real, avgProminence * 2.0));
        RoundOfInt(range);
        RoundMonotone(range as real, RealMax(range as real, avgProminence * 2.0));
        RoundMonotone(2.0 * avgProminence, RealMax(range as real, avgProminence * 2.0));
        depth
      else
        RoundOfInt(range);
        Round(range as real)
  }

  /** calculate: the four metrics together. */
  method Calculate(peaks: seq<Peak>, samples: seq<RawBreathSample>, timeWindowSeconds: real, sqrt: real -> real)
    returns (m: BreathingMetrics)
    ensures m == BreathingMetrics(BreathingRate(peaks, timeWindowSeconds), MeanBreathLengthMs(peaks),
                                  VariabilityOf(peaks, sqrt), BreathDepth(samples, peaks))
  {
    var breathingRate := BreathingRate(peaks, timeWindowSeconds);
    var breathLengthMs := AverageBreathLength(peaks);
    var variability := Variability(peaks, sqrt);
    var breathDepth := BreathDepth(samples, peaks);
    m := BreathingMetrics(breathingRate, breathLengthMs, variability, breathDepth);
  }

  /** The rate reads only the sorted peak times: reordering the peaks or changing the window argument changes nothing. */
  lemma BreathingRateOrderIrrelevant(a: seq<Peak>, b: seq<Peak>, w1: real, w2: real)
    requires multiset(a) == multiset(b)
    ensures BreathingRate(a, w1) == BreathingRate(b, w2)
  {
    SamePeakTimes(a, b);
  }

  /** The average breath length does not depend on the order of the peaks. */
  lemma MeanBreathLengthOrderIrrelevant(a: seq<Peak>, b: seq<Peak>)
    requires multiset(a) == multiset(b)
    ensures MeanBreathLengthMs(a) == MeanBreathLengthMs(b)
  {
    SamePeakTimes(a, b);
  }

  /** The variability does not depend on the order of the peaks. */
  lemma VariabilityOrderIrrelevant(a: seq<Peak>, b: seq<Peak>, sqrt: real -> real)
    requires multiset(a) == multiset(b)
    ensures VariabilityOf(a, sqrt) == VariabilityOf(b, sqrt)
  {
    SamePeakTimes(a, b);
  }

  lemma SamePeakTimes(a: seq<Peak>, b: seq<Peak>)
    requires multiset(a) == multiset(b)
    ensures PeakTimes(a) == PeakTimes(b) && |a| == |b|
  {
    SortByKeysPermutationInvariant(a, b, PeakTime);
    assert |a| == |multiset(a)| == |b|;
  }
}
