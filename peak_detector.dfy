/**
 * Breath detection over a device's sample buffer (apps/backend/src/processing/peak-detector.ts):
 * sort a copy by time, smooth with a 3-wide moving average, take strict local maxima and
 * minima, score each by prominence against the lowest values within 10 positions on either side,
 * drop the weak ones, and thin the peaks so that kept peaks are far enough apart in time.
 * Signal values are reals.
 */
module PeakDetection {
  import opened Ordering
  import opened Domain
  import BackendConfig

  /** A detected peak or valley: its position in the smoothed signal, its time, its smoothed value. */
  datatype Peak = Peak(index: nat, timestamp: int, value: real, prominence: real)

  function PeakTime(p: Peak): int { p.timestamp }

  /** The detector's two settings, fixed at construction. */
  datatype Detector = Detector(minProminence: real, minDistanceMs: int)

  const DefaultDetector: Detector := Detector(BackendConfig.PeakProminence, BackendConfig.MinPeakDistanceMs)

  datatype Detection = Detection(peaks: seq<Peak>, valleys: seq<Peak>)

  function RealMin(a: real, b: real): real { if a <= b then a else b }
  function RealMax(a: real, b: real): real { if a >= b then a else b }

  /** The smallest element of a non-empty sequence. */
  function SeqMin(s: seq<real>): (m: real)
    requires |s| > 0
    ensures forall k :: 0 <= k < |s| ==> m <= s[k]
  {
    if |s| == 1 then s[0] else RealMin(s[0], SeqMin(s[1..]))
  }

  /** The largest element of a non-empty sequence. */
  function SeqMax(s: seq<real>): (m: real)
    requires |s| > 0
    ensures forall k :: 0 <= k < |s| ==> s[k] <= m
  {
    if |s| == 1 then s[0] else RealMax(s[0], SeqMax(s[1..]))
  }

  /** The minimum is one of the elements; k is where. */
  lemma {:induction false} SeqMinAttained(s: seq<real>) returns (k: nat)
    requires |s| > 0
    ensures k < |s| && s[k] == SeqMin(s)
  {
    if |s| == 1 {
      k := 0;
    } else if s[0] <= SeqMin(s[1..]) {
      k := 0;
    } else {
      var k' := SeqMinAttained(s[1..]);
      k := k' + 1;
    }
  }

  /** The maximum is one of the elements; k is where. */
  lemma {:induction false} SeqMaxAttained(s: seq<real>) returns (k: nat)
    requires |s| > 0
    ensures k < |s| && s[k] == SeqMax(s)
  {
    if |s| == 1 {
      k := 0;
    } else if s[0] >= SeqMax(s[1..]) {
      k := 0;
    } else {
      var k' := SeqMaxAttained(s[1..]);
      k := k' + 1;
    }
  }

  lemma {:induction false} SeqMinSnoc(s: seq<real>, x: real)
    requires |s| > 0
    ensures SeqMin(s + [x]) == RealMin(SeqMin(s), x)
  {
    if |s| > 1 {
      assert (s + [x])[1..] == s[1..] + [x];
      SeqMinSnoc(s[1..], x);
    }
  }

  function Sum(s: seq<real>): real {
    if s == [] then 0.0 else Sum(s[..|s| - 1]) + s[|s| - 1]
  }

  lemma {:induction false} SumBounds(s: seq<real>, lo: real, hi: real)
    requires forall k :: 0 <= k < |s| ==> lo <= s[k] <= hi
    ensures |s| as real * lo <= Sum(s) <= |s| as real * hi
  {
    if s != [] {
      SumBounds(s[..|s| - 1], lo, hi);
    }
  }

  lemma MeanBounds(x: real, n: real, lo: real, hi: real)
    requires n > 0.0 && n * lo <= x <= n * hi
    ensures lo <= x / n <= hi
  {
    assert (x / n) * n == x;
  }

  // ---------------------------------------------------------------- smoothing

  /** First position of the edge-clipped window around i: Math.max(0, i - half). */
  function WindowStart(i: nat, half: nat): nat {
    if i >= half then i - half else 0
  }

  /** Last position (inclusive) of the window: Math.min(n - 1, i + half). */
  function WindowEnd(i: nat, half: nat, n: nat): nat
    requires i < n
  {
    if i + half <= n - 1 then i + half else n - 1
  }

  function Window(values: seq<real>, i: nat, half: nat): (w: seq<real>)
    requires i < |values|
    ensures |w| >= 1
  {
    values[WindowStart(i, half)..WindowEnd(i, half, |values|) + 1]
  }

  function WindowMean(values: seq<real>, i: nat, half: nat): real
    requires i < |values|
  {
    Sum(Window(values, i, half)) / |Window(values, i, half)| as real
  }

  /** The moving average of `values` with the given window size. */
  function Smoothed(values: seq<real>, windowSize: nat): (r: seq<real>)
    ensures |r| == |values|
  {
    seq(|values|, i requires 0 <= i < |values| => WindowMean(values, i, windowSize / 2))
  }

  /** Every smoothed value lies between the smallest and the largest value of its window. */
  lemma SmoothedWithinWindow(values: seq<real>, windowSize: nat, i: nat)
    requires i < |values|
    ensures var w := Window(values, i, windowSize / 2);
      SeqMin(w) <= Smoothed(values, windowSize)[i] <= SeqMax(w)
  {
    var w := Window(values, i, windowSize / 2);
    assert Smoothed(values, windowSize)[i] == WindowMean(values, i, windowSize / 2);
    MeanWithin(w);
  }

  /** The mean of a non-empty sequence lies between its minimum and its maximum. */
  lemma MeanWithin(w: seq<real>)
    requires |w| > 0
    ensures SeqMin(w) <= Sum(w) / |w| as real <= SeqMax(w)
  {
    MeanOfBounded(w, SeqMin(w), SeqMax(w));
  }

  lemma MeanOfBounded(w: seq<real>, lo: real, hi: real)
    requires |w| > 0
    requires forall k :: 0 <= k < |w| ==> lo <= w[k] <= hi
    ensures lo <= Sum(w) / |w| as real <= hi
  {
    SumBounds(w, lo, hi);
    MeanBounds(Sum(w), |w| as real, lo, hi);
  }

  /** smooth: for each position, add up the clipped window and divide by its size. */
  method Smooth(values: seq<real>, windowSize: nat) returns (result: seq<real>)
    ensures result == Smoothed(values, windowSize)
  {
    result := [];
    var halfWindow := windowSize / 2;
    for i := 0 to |values|
      invariant |result| == i
      invariant forall k :: 0 <= k < i ==> result[k] == WindowMean(values, k, halfWindow)
    {
      var lo := if i - halfWindow > 0 then i - halfWindow else 0;
      var hi := if |values| - 1 < i + halfWindow then |values| - 1 else i + halfWindow;
      var sum, count := WindowSum(values, lo, hi);
      assert values[lo..hi + 1] == Window(values, i, halfWindow);
      result := result + [sum / count as real];
    }
  }

  /** The inner loop of smooth: the sum and the number of values[lo..hi], both ends included. */
  method WindowSum(values: seq<real>, lo: nat, hi: nat) returns (sum: real, count: int)
    requires lo <= hi < |values|
    ensures sum == Sum(values[lo..hi + 1]) && count == hi - lo + 1
  {
    sum := 0.0;
    count := 0;
    var j := lo;
    while j <= hi
      invariant lo <= j <= hi + 1
      invariant sum == Sum(values[lo..j]) && count == j - lo
    {
      assert values[lo..j + 1][..j - lo] == values[lo..j];
      sum := sum + values[j];
      count := count + 1;
      j := j + 1;
    }
  }

  // ---------------------------------------------------------------- local extrema

  datatype Extremum = Maximum | Minimum

  /** Position i is strictly above (below) both neighbours. */
  predicate IsExtremum(values: seq<real>, i: nat, kind: Extremum)
    requires 1 <= i < |values| - 1
  {
    match kind
    case Maximum => values[i] > values[i - 1] && values[i] > values[i + 1]
    case Minimum => values[i] < values[i - 1] && values[i] < values[i + 1]
  }

  /** The extrema at positions from..|values|-2, in position order, with prominence not yet scored. */
  function Candidates(values: seq<real>, samples: seq<RawBreathSample>, kind: Extremum, from: nat): (r: seq<Peak>)
    requires 1 <= from && |values| <= |samples|
    ensures |r| <= if from < |values| - 1 then |values| - 1 - from else 0
    decreases |values| - from
  {
    if from >= |values| - 1 then []
    else
      (if IsExtremum(values, from, kind) then [Peak(from, samples[from].timestamp, values[from], 0.0)] else [])
      + Candidates(values, samples, kind, from + 1)
  }

  /** Every element of r is a strict extremum at a position in from..n-2, carrying that position's time and value. */
  predicate ExtremaFrom(values: seq<real>, samples: seq<RawBreathSample>, kind: Extremum, from: nat, r: seq<Peak>)
    requires 1 <= from && |values| <= |samples|
  {
    forall k :: 0 <= k < |r| ==>
      && from <= r[k].index < |values| - 1
      && IsExtremum(values, r[k].index, kind)
      && r[k] == Peak(r[k].index, samples[r[k].index].timestamp, values[r[k].index], 0.0)
  }

  lemma {:induction false} CandidatesSound(values: seq<real>, samples: seq<RawBreathSample>, kind: Extremum, from: nat)
    requires 1 <= from && |values| <= |samples|
    ensures ExtremaFrom(values, samples, kind, from, Candidates(values, samples, kind, from))
    decreases |values| - from
  {
    if from < |values| - 1 {
      CandidatesSound(values, samples, kind, from + 1);
      ghost var rest := Candidates(values, samples, kind, from + 1);
      ghost var head := if IsExtremum(values, from, kind) then [Peak(from, samples[from].timestamp, values[from], 0.0)] else [];
      ghost var r := head + rest;
      assert Candidates(values, samples, kind, from) == r;
      forall k | 0 <= k < |r|
        ensures from <= r[k].index < |values| - 1
        ensures IsExtremum(values, r[k].index, kind)
        ensures r[k] == Peak(r[k].index, samples[r[k].index].timestamp, values[r[k].index], 0.0)
      {
        if k < |head| {
          assert r[k] == head[k];
        } else {
          assert r[k] == rest[k - |head|];
        }
      }
    }
  }

  /** Candidates come out in strictly increasing position order. */
  lemma {:induction false} CandidatesIncreasing(values: seq<real>, samples: seq<RawBreathSample>, kind: Extremum, from: nat)
    requires 1 <= from && |values| <= |samples|
    ensures IncreasingIndices(Candidates(values, samples, kind, from))
    decreases |values| - from
  {
    if from < |values| - 1 {
      CandidatesIncreasing(values, samples, kind, from + 1);
      CandidatesSound(values, samples, kind, from + 1);
      ghost var rest := Candidates(values, samples, kind, from + 1);
      ghost var head := if IsExtremum(values, from, kind) then [Peak(from, samples[from].timestamp, values[from], 0.0)] else [];
      ghost var r := head + rest;
      assert Candidates(values, samples, kind, from) == r;
      forall k, l | 0 <= k < l < |r|
        ensures r[k].index < r[l].index
      {
        if k < |head| {
          assert r[k] == head[k] && r[k].index == from;
          assert r[l] == rest[l - |head|];
        } else {
          assert r[k] == rest[k - |head|] && r[l] == rest[l - |head|];
        }
      }
    }
  }

  /** Every strict extremum at a position in from..n-2 is reported. */
  lemma {:induction false} CandidatesComplete(values: seq<real>, samples: seq<RawBreathSample>, kind: Extremum, from: nat, i: nat)
    requires 1 <= from <= i < |values| - 1 && |values| <= |samples|
    requires IsExtremum(values, i, kind)
    ensures exists k :: 0 <= k < |Candidates(values, samples, kind, from)| && Candidates(values, samples, kind, from)[k].index == i
    decreases |values| - from
  {
    ghost var rest := Candidates(values, samples, kind, from + 1);
    ghost var head := if IsExtremum(values, from, kind) then [Peak(from, samples[from].timestamp, values[from], 0.0)] else [];
    ghost var r := head + rest;
    assert Candidates(values, samples, kind, from) == r;
    if i == from {
      assert r[0].index == i;
    } else {
      CandidatesComplete(values, samples, kind, from + 1, i);
      var k' :| 0 <= k' < |rest| && rest[k'].index == i;
      assert r[k' + |head|].index == i;
    }
  }

  /** All strict local maxima (or minima) of `values`. */
  function LocalExtrema(values: seq<real>, samples: seq<RawBreathSample>, kind: Extremum): seq<Peak>
    requires |values| <= |samples|
  {
    Candidates(values, samples, kind, 1)
  }

  /** findLocalMaxima / findLocalMinima: scan positions 1..n-2 and push each strict extremum. */
  method FindLocalExtrema(values: seq<real>, samples: seq<RawBreathSample>, kind: Extremum) returns (peaks: seq<Peak>)
    requires |values| <= |samples|
    ensures peaks == LocalExtrema(values, samples, kind)
  {
    peaks := [];
    var i := 1;
    while i < |values| - 1
      invariant 1 <= i
      invariant peaks + Candidates(values, samples, kind, i) == LocalExtrema(values, samples, kind)
      decreases |values| - i
    {
      assert peaks + Candidates(values, samples, kind, i)
        == peaks + (if IsExtremum(values, i, kind) then [Peak(i, samples[i].timestamp, values[i], 0.0)] else [])
           + Candidates(values, samples, kind, i + 1);
      if IsExtremum(values, i, kind) {
        peaks := peaks + [Peak(i, samples[i].timestamp, values[i], 0.0)];
      }
      i := i + 1;
    }
  }

  // ---------------------------------------------------------------- windowed minima

  const MinSearchReach: nat := 10

  /** The lowest value among index and the (at most) 10 positions before it. */
  function MinBefore(values: seq<real>, index: nat): (m: real)
    requires index < |values|
    ensures m <= values[index]
    ensures forall k :: WindowStart(index, MinSearchReach) <= k <= index ==> m <= values[k]
  {
    var w := values[WindowStart(index, MinSearchReach)..index + 1];
    var m := SeqMin(w);
    assert forall k :: WindowStart(index, MinSearchReach) <= k <= index ==> values[k] == w[k - WindowStart(index, MinSearchReach)];
    m
  }

  /** The (exclusive) end of the search after index: Math.min(n, index + 11). */
  function AfterEnd(index: nat, n: nat): nat {
    if index + MinSearchReach + 1 <= n then index + MinSearchReach + 1 else n
  }

  /** The lowest value among index and the (at most) 10 positions after it. */
  function MinAfter(values: seq<real>, index: nat): (m: real)
    requires index < |values|
    ensures m <= values[index]
    ensures forall k :: index <= k < AfterEnd(index, |values|) ==> m <= values[k]
  {
    var w := values[index..AfterEnd(index, |values|)];
    var m := SeqMin(w);
    assert forall k :: index <= k < AfterEnd(index, |values|) ==> values[k] == w[k - index];
    m
  }

  /** Both side minima are values actually found inside their windows. */
  lemma SideMinimaAttained(values: seq<real>, index: nat) returns (before: nat, after: nat)
    requires index < |values|
    ensures WindowStart(index, MinSearchReach) <= before <= index && values[before] == MinBefore(values, index)
    ensures index <= after < AfterEnd(index, |values|) && values[after] == MinAfter(values, index)
  {
    var lo := WindowStart(index, MinSearchReach);
    var b := SeqMinAttained(values[lo..index + 1]);
    before := lo + b;
    var a := SeqMinAttained(values[index..AfterEnd(index, |values|)]);
    after := index + a;
  }

  /** findMinBefore: a running minimum walking left from index - 1 while i >= 0 and i >= index - 10. */
  method FindMinBefore(values: seq<real>, index: nat) returns (min: real)
    requires index < |values|
    ensures min == MinBefore(values, index)
  {
    min := values[index];
    var i: int := index - 1;
    while i >= 0 && i >= index - 10
      invariant WindowStart(index, MinSearchReach) - 1 <= i <= index - 1
      invariant min == SeqMin(values[i + 1..index + 1])
    {
      assert values[i..index + 1][1..] == values[i + 1..index + 1];
      min := RealMin(values[i], min);
      i := i - 1;
    }
  }

  /** findMinAfter: a running minimum walking right from index + 1 while i < n and i <= index + 10. */
  method FindMinAfter(values: seq<real>, index: nat) returns (min: real)
    requires index < |values|
    ensures min == MinAfter(values, index)
  {
    min := values[index];
    var i := index + 1;
    while i < |values| && i <= index + 10
      invariant index + 1 <= i <= AfterEnd(index, |values|)
      invariant min == SeqMin(values[index..i])
    {
      assert values[index..i + 1] == values[index..i] + [values[i]];
      SeqMinSnoc(values[index..i], values[i]);
      min := RealMin(min, values[i]);
      i := i + 1;
    }
  }

  // ---------------------------------------------------------------- prominence

  /** The peak with its prominence: its value minus the mean of the two side minima. */
  function Score(p: Peak, values: seq<real>): (q: Peak)
    requires p.index < |values|
    ensures q.index == p.index && q.timestamp == p.timestamp && q.value == p.value
    ensures p.value == values[p.index] ==> q.prominence >= 0.0
  {
    var baseLevel := (MinBefore(values, p.index) + MinAfter(values, p.index)) / 2.0;
    p.(prominence := p.value - baseLevel)
  }

  predicate IndicesBelow(peaks: seq<Peak>, n: nat) {
    forall k :: 0 <= k < |peaks| ==> peaks[k].index < n
  }

  predicate IncreasingIndices(peaks: seq<Peak>) {
    forall k, l :: 0 <= k < l < |peaks| ==> peaks[k].index < peaks[l].index
  }

  /** filterByProminence: score every candidate, then keep those whose prominence reaches the minimum. */
  function FilterByProminence(peaks: seq<Peak>, values: seq<real>, minProminence: real): (r: seq<Peak>)
    requires IndicesBelow(peaks, |values|)
    ensures |r| <= |peaks|
    ensures IndicesBelow(r, |values|)
    ensures forall k :: 0 <= k < |r| ==> r[k].prominence >= minProminence
  {
    if peaks == [] then []
    else
      var q := Score(peaks[0], values);
      (if q.prominence >= minProminence then [q] else []) + FilterByProminence(peaks[1..], values, minProminence)
  }

  /** Every kept peak is the scored form of some candidate. */
  lemma {:induction false} FilterByProminenceSound(peaks: seq<Peak>, values: seq<real>, minProminence: real, k: nat)
    requires IndicesBelow(peaks, |values|)
    requires k < |FilterByProminence(peaks, values, minProminence)|
    ensures exists t :: 0 <= t < |peaks| && FilterByProminence(peaks, values, minProminence)[k] == Score(peaks[t], values)
  {
    ghost var q := Score(peaks[0], values);
    ghost var head := if q.prominence >= minProminence then [q] else [];
    ghost var rest := FilterByProminence(peaks[1..], values, minProminence);
    ghost var r := head + rest;
    assert FilterByProminence(peaks, values, minProminence) == r;
    if k < |head| {
      assert r[k] == Score(peaks[0], values);
    } else {
      FilterByProminenceSound(peaks[1..], values, minProminence, k - |head|);
      var t :| 0 <= t < |peaks[1..]| && rest[k - |head|] == Score(peaks[1..][t], values);
      assert r[k] == Score(peaks[t + 1], values);
    }
  }

  /** Every candidate whose score reaches the minimum is kept. */
  lemma {:induction false} FilterByProminenceComplete(peaks: seq<Peak>, values: seq<real>, minProminence: real, t: nat)
    requires IndicesBelow(peaks, |values|)
    requires t < |peaks| && Score(peaks[t], values).prominence >= minProminence
    ensures Score(peaks[t], values) in FilterByProminence(peaks, values, minProminence)
  {
    ghost var q := Score(peaks[0], values);
    ghost var head := if q.prominence >= minProminence then [q] else [];
    ghost var rest := FilterByProminence(peaks[1..], values, minProminence);
    assert FilterByProminence(peaks, values, minProminence) == head + rest;
    if t > 0 {
      assert peaks[1..][t - 1] == peaks[t];
      FilterByProminenceComplete(peaks[1..], values, minProminence, t - 1);
    }
  }

  lemma {:induction false} FilterByProminenceIndicesAbove(peaks: seq<Peak>, values: seq<real>, minProminence: real, bound: int)
    requires IndicesBelow(peaks, |values|)
    requires forall t :: 0 <= t < |peaks| ==> peaks[t].index > bound
    ensures forall k :: 0 <= k < |FilterByProminence(peaks, values, minProminence)| ==>
      FilterByProminence(peaks, values, minProminence)[k].index > bound
  {
    if peaks != [] {
      ghost var q := Score(peaks[0], values);
      ghost var head := if q.prominence >= minProminence then [q] else [];
      ghost var rest := FilterByProminence(peaks[1..], values, minProminence);
      ghost var r := head + rest;
      assert FilterByProminence(peaks, values, minProminence) == r;
      FilterByProminenceIndicesAbove(peaks[1..], values, minProminence, bound);
      forall k | 0 <= k < |r|
        ensures r[k].index > bound
      {
        if k < |head| {
          assert r[k] == q;
        } else {
          assert r[k] == rest[k - |head|];
        }
      }
    }
  }

  /** Kept peaks stay in candidate order. */
  lemma {:induction false} FilterByProminenceOrdered(peaks: seq<Peak>, values: seq<real>, minProminence: real)
    requires IndicesBelow(peaks, |values|) && IncreasingIndices(peaks)
    ensures IncreasingIndices(FilterByProminence(peaks, values, minProminence))
  {
    if peaks != [] {
      ghost var q := Score(peaks[0], values);
      ghost var head := if q.prominence >= minProminence then [q] else [];
      ghost var rest := FilterByProminence(peaks[1..], values, minProminence);
      ghost var r := head + rest;
      assert FilterByProminence(peaks, values, minProminence) == r;
      FilterByProminenceOrdered(peaks[1..], values, minProminence);
      FilterByProminenceIndicesAbove(peaks[1..], values, minProminence, peaks[0].index);
      forall k, l | 0 <= k < l < |r|
        ensures r[k].index < r[l].index
      {
        assert r[l] == rest[l - |head|];
        if k < |head| {
          assert r[k] == q;
        } else {
          assert r[k] == rest[k - |head|];
        }
      }
    }
  }

  // ---------------------------------------------------------------- minimum distance

  /** One step of filterByDistance: append a far-enough peak, or let a stronger close one replace the last kept peak. */
  function ThinStep(kept: seq<Peak>, p: Peak, minDistanceMs: int): (r: seq<Peak>)
    requires |kept| > 0
    ensures 1 <= |r| <= |kept| + 1
  {
    var last := kept[|kept| - 1];
    if (p.timestamp - last.timestamp) * 1000 >= minDistanceMs then kept + [p]
    else if p.prominence > last.prominence then kept[..|kept| - 1] + [p]
    else kept
  }

  /** The filter run over s[j..], starting from the peaks kept so far. */
  function ThinFrom(s: seq<Peak>, j: nat, kept: seq<Peak>, minDistanceMs: int): (r: seq<Peak>)
    requires |kept| > 0 && j <= |s|
    ensures 1 <= |r| <= |kept| + (|s| - j)
    decreases |s| - j
  {
    if j == |s| then kept else ThinFrom(s, j + 1, ThinStep(kept, s[j], minDistanceMs), minDistanceMs)
  }

  /** What filterByDistance returns: thinning of the peaks in time order. */
  function DistanceFilter(peaks: seq<Peak>, minDistanceMs: int): seq<Peak> {
    if peaks == [] then []
    else
      var sorted := SortBy(peaks, PeakTime);
      ThinFrom(sorted, 1, [sorted[0]], minDistanceMs)
  }

  /** filterByDistance: sort a copy by time, then keep, replace or skip each peak after the first. */
  method FilterByDistance(peaks: seq<Peak>, minDistanceMs: int) returns (filtered: seq<Peak>)
    ensures filtered == DistanceFilter(peaks, minDistanceMs)
  {
    if |peaks| == 0 {
      return [];
    }
    var sorted := SortBy(peaks, PeakTime);
    filtered := [sorted[0]];
    for i := 1 to |sorted|
      invariant |filtered| > 0
      invariant ThinFrom(sorted, i, filtered, minDistanceMs) == DistanceFilter(peaks, minDistanceMs)
    {
      ghost var before := filtered;
      var lastPeak := filtered[|filtered| - 1];
      var timeDiff := (sorted[i].timestamp - lastPeak.timestamp) * 1000;
      if timeDiff >= minDistanceMs {
        filtered := filtered + [sorted[i]];
      } else if sorted[i].prominence > lastPeak.prominence {
        filtered := filtered[|filtered| - 1 := sorted[i]];
        assert filtered == before[..|before| - 1] + [sorted[i]];
      }
      assert filtered == ThinStep(before, sorted[i], minDistanceMs);
    }
  }

  /** The time from kept peak k to the next one, in milliseconds. */
  function GapMs(kept: seq<Peak>, k: nat): int
    requires k + 1 < |kept|
  {
    (kept[k + 1].timestamp - kept[k].timestamp) * 1000
  }

  /** Consecutive kept peaks are at least minDistanceMs apart. */
  predicate Spaced(kept: seq<Peak>, minDistanceMs: int) {
    forall k :: 0 <= k < |kept| - 1 ==> GapMs(kept, k) >= minDistanceMs
  }

  /** idx picks, in increasing order, positions of s below bound that hold the elements of kept. */
  predicate Picks(idx: seq<nat>, kept: seq<Peak>, s: seq<Peak>, bound: nat) {
    && |idx| == |kept|
    && (forall k :: 0 <= k < |idx| ==> idx[k] < bound && idx[k] < |s| && kept[k] == s[idx[k]])
    && (forall k, l :: 0 <= k < l < |idx| ==> idx[k] < idx[l])
  }

  lemma ThinStepKeepsShape(s: seq<Peak>, j: nat, kept: seq<Peak>, idx: seq<nat>, minDistanceMs: int)
    returns (idx': seq<nat>)
    requires SortedBy(s, PeakTime) && j < |s|
    requires |kept| > 0 && Picks(idx, kept, s, j) && Spaced(kept, minDistanceMs)
    ensures Picks(idx', ThinStep(kept, s[j], minDistanceMs), s, j + 1)
    ensures Spaced(ThinStep(kept, s[j], minDistanceMs), minDistanceMs)
  {
    var n := |kept|;
    var last := kept[n - 1];
    var p := s[j];
    var r := ThinStep(kept, p, minDistanceMs);
    if (p.timestamp - last.timestamp) * 1000 >= minDistanceMs {
      idx' := idx + [j];
      assert r == kept + [p];
      forall k | 0 <= k < |r| - 1
        ensures GapMs(r, k) >= minDistanceMs
      {
        if k < n - 1 {
          assert GapMs(r, k) == GapMs(kept, k);
        }
      }
    } else if p.prominence > last.prominence {
      idx' := idx[..n - 1] + [j];
      assert r == kept[..n - 1] + [p];
      assert PeakTime(s[idx[n - 1]]) <= PeakTime(s[j]);
      forall k | 0 <= k < |r| - 1
        ensures GapMs(r, k) >= minDistanceMs
      {
        if k < n - 2 {
          assert GapMs(r, k) == GapMs(kept, k);
        } else {
          assert GapMs(kept, k) >= minDistanceMs;
        }
      }
    } else {
      idx' := idx;
    }
  }

  /**
   * filterByDistance returns nothing exactly when it is given nothing, never more peaks than
   * it is given, kept peaks at least minDistanceMs apart, and a subsequence (witnessed by idx)
   * of the time-sorted input, hence itself in time order and drawn from the input.
   */
  lemma DistanceFilterProperties(peaks: seq<Peak>, minDistanceMs: int) returns (idx: seq<nat>)
    ensures var r := DistanceFilter(peaks, minDistanceMs);
      && (|r| == 0 <==> |peaks| == 0)
      && |r| <= |peaks|
      && Spaced(r, minDistanceMs)
      && Picks(idx, r, SortBy(peaks, PeakTime), |peaks|)
      && SortedBy(r, PeakTime)
      && (forall k :: 0 <= k < |r| ==> r[k] in peaks)
  {
    var sorted := SortBy(peaks, PeakTime);
    if peaks == [] {
      idx := [];
      return;
    }
    var kept := [sorted[0]];
    idx := [0];
    var j := 1;
    while j < |sorted|
      invariant 1 <= j <= |sorted| && |kept| > 0
      invariant ThinFrom(sorted, j, kept, minDistanceMs) == DistanceFilter(peaks, minDistanceMs)
      invariant Picks(idx, kept, sorted, j) && Spaced(kept, minDistanceMs)
    {
      idx := ThinStepKeepsShape(sorted, j, kept, idx, minDistanceMs);
      kept := ThinStep(kept, sorted[j], minDistanceMs);
      j := j + 1;
    }
    var r := DistanceFilter(peaks, minDistanceMs);
    assert r == kept;
    forall k, l | 0 <= k < l < |r|
      ensures PeakTime(r[k]) <= PeakTime(r[l])
    {
      assert r[k] == sorted[idx[k]] && r[l] == sorted[idx[l]];
    }
    forall k | 0 <= k < |r|
      ensures r[k] in peaks
    {
      assert r[k] == sorted[idx[k]];
      assert sorted[idx[k]] in multiset(sorted);
    }
  }

  // ---------------------------------------------------------------- detect

  function RawValues(samples: seq<RawBreathSample>): (r: seq<real>)
    ensures |r| == |samples|
  {
    seq(|samples|, i requires 0 <= i < |samples| => samples[i].rawValue as real)
  }

  /** What detect returns for a buffer. */
  function DetectionOf(d: Detector, samples: seq<RawBreathSample>): (r: Detection)
    ensures |samples| < 3 ==> r == Detection([], [])
    ensures |r.peaks| <= |samples| && |r.valleys| <= |samples|
  {
    if |samples| < 3 then Detection([], [])
    else
      var sorted := SortBy(samples, SampleTime);
      var smoothed := Smoothed(RawValues(sorted), 3);
      CandidatesSound(smoothed, sorted, Maximum, 1);
      CandidatesSound(smoothed, sorted, Minimum, 1);
      var peaks := FilterByProminence(LocalExtrema(smoothed, sorted, Maximum), smoothed, d.minProminence);
      var valleys := FilterByProminence(LocalExtrema(smoothed, sorted, Minimum), smoothed, d.minProminence);
      Detection(DistanceFilter(peaks, d.minDistanceMs), valleys)
  }

  /** detect: at least 3 samples are needed; valleys are scored and filtered but not thinned by distance. */
  method Detect(d: Detector, samples: seq<RawBreathSample>) returns (result: Detection)
    ensures result == DetectionOf(d, samples)
    ensures |samples| < 3 ==> result == Detection([], [])
  {
    if |samples| < 3 {
      return Detection([], []);
    }
    var sorted := SortBy(samples, SampleTime);
    var smoothed := Smooth(RawValues(sorted), 3);
    var rawPeaks := FindLocalExtrema(smoothed, sorted, Maximum);
    var rawValleys := FindLocalExtrema(smoothed, sorted, Minimum);
    CandidatesSound(smoothed, sorted, Maximum, 1);
    CandidatesSound(smoothed, sorted, Minimum, 1);
    var peaks := FilterByProminence(rawPeaks, smoothed, d.minProminence);
    var valleys := FilterByProminence(rawValleys, smoothed, d.minProminence);
    var filteredPeaks := FilterByDistance(peaks, d.minDistanceMs);
    return Detection(filteredPeaks, valleys);
  }

  /** A reported peak or valley: a strict extremum of the smoothed signal, with its smoothed value and enough prominence. */
  predicate ScoredExtremum(p: Peak, values: seq<real>, kind: Extremum, minProminence: real) {
    && 1 <= p.index < |values| - 1
    && IsExtremum(values, p.index, kind)
    && p.value == values[p.index]
    && p.prominence >= minProminence
    && p.prominence >= 0.0
  }

  predicate AllScored(r: seq<Peak>, values: seq<real>, kind: Extremum, minProminence: real) {
    forall k :: 0 <= k < |r| ==> ScoredExtremum(r[k], values, kind, minProminence)
  }

  lemma ScoredCandidates(values: seq<real>, samples: seq<RawBreathSample>, kind: Extremum, minProminence: real)
    requires |values| <= |samples|
    ensures IndicesBelow(LocalExtrema(values, samples, kind), |values|)
    ensures AllScored(FilterByProminence(LocalExtrema(values, samples, kind), values, minProminence), values, kind, minProminence)
  {
    var c := LocalExtrema(values, samples, kind);
    CandidatesSound(values, samples, kind, 1);
    var r := FilterByProminence(c, values, minProminence);
    forall k | 0 <= k < |r|
      ensures ScoredExtremum(r[k], values, kind, minProminence)
    {
      FilterByProminenceSound(c, values, minProminence, k);
      var t :| 0 <= t < |c| && r[k] == Score(c[t], values);
    }
  }

  /** The buffer sorted by time, smoothed: the signal detect works on. */
  function SmoothedSignal(samples: seq<RawBreathSample>): (r: seq<real>)
    ensures |r| == |samples|
  {
    Smoothed(RawValues(SortBy(samples, SampleTime)), 3)
  }

  /**
   * Detected peaks are strict maxima of the smoothed signal with enough (and non-negative)
   * prominence, in time order, spaced by minDistanceMs, and no more of them than the maxima.
   */
  lemma DetectedPeaks(d: Detector, samples: seq<RawBreathSample>)
    requires |samples| >= 3
    ensures AllScored(DetectionOf(d, samples).peaks, SmoothedSignal(samples), Maximum, d.minProminence)
    ensures SortedBy(DetectionOf(d, samples).peaks, PeakTime)
    ensures Spaced(DetectionOf(d, samples).peaks, d.minDistanceMs)
    ensures |DetectionOf(d, samples).peaks| <= |LocalExtrema(SmoothedSignal(samples), SortBy(samples, SampleTime), Maximum)|
  {
    var sorted := SortBy(samples, SampleTime);
    var smoothed := SmoothedSignal(samples);
    ScoredCandidates(smoothed, sorted, Maximum, d.minProminence);
    var peaks := FilterByProminence(LocalExtrema(smoothed, sorted, Maximum), smoothed, d.minProminence);
    var _ := DistanceFilterProperties(peaks, d.minDistanceMs);
    var r := DistanceFilter(peaks, d.minDistanceMs);
    assert DetectionOf(d, samples).peaks == r;
    forall k | 0 <= k < |r|
      ensures ScoredExtremum(r[k], smoothed, Maximum, d.minProminence)
    {
      assert r[k] in peaks;
      var t :| 0 <= t < |peaks| && peaks[t] == r[k];
    }
  }

  /** Detected valleys are strict minima with enough prominence, in position order, and are not thinned by distance. */
  lemma DetectedValleys(d: Detector, samples: seq<RawBreathSample>)
    requires |samples| >= 3
    ensures AllScored(DetectionOf(d, samples).valleys, SmoothedSignal(samples), Minimum, d.minProminence)
    ensures IncreasingIndices(DetectionOf(d, samples).valleys)
    ensures IndicesBelow(LocalExtrema(SmoothedSignal(samples), SortBy(samples, SampleTime), Minimum), |samples|)
    ensures DetectionOf(d, samples).valleys
      == FilterByProminence(LocalExtrema(SmoothedSignal(samples), SortBy(samples, SampleTime), Minimum), SmoothedSignal(samples), d.minProminence)
  {
    var sorted := SortBy(samples, SampleTime);
    var smoothed := SmoothedSignal(samples);
    ScoredCandidates(smoothed, sorted, Minimum, d.minProminence);
    CandidatesIncreasing(smoothed, sorted, Minimum, 1);
    FilterByProminenceOrdered(LocalExtrema(smoothed, sorted, Minimum), smoothed, d.minProminence);
  }
}
