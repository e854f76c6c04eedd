/**
 * The per-device processing pipeline (apps/backend/src/processing/pipeline.ts): a map from
 * device id to a rolling buffer of its latest samples and the time of its last detected breath.
 * `Date.now()` is the `nowMs` parameter and `Math.sqrt` the `sqrt` parameter; logging is not modelled.
 */
module Pipeline {
  import opened Wrappers
  import opened Ordering
  import opened Domain
  import BackendConfig
  import PeakDetection
  import Metrics

  datatype ProcessingState = ProcessingState(
    deviceId: string,
    sampleBuffer: seq<RawBreathSample>,
    lastBreathTimestamp: Option<int>,   // null is None
    breathIntervals: seq<int>)

  /**
   * The metrics object of a result. A full result carries the four computed metrics and no
   * signalQuality; the empty result carries signalQuality 0 and no breathDepth.
   */
  datatype ResultMetrics = ResultMetrics(
    breathingRate: real,
    breathLengthMs: int,
    variability: real,
    breathDepth: Option<int>,
    signalQuality: Option<real>)

  datatype ProcessingResult = ProcessingResult(metrics: ResultMetrics, apneaRisk: ApneaRiskLevel, lastBreathTimestamp: Option<int>)

  /** Fewer samples than this and the pipeline does not run detection. */
  const MinSamplesToProcess: nat := 10

  function InitialState(deviceId: string): ProcessingState {
    ProcessingState(deviceId, [], None, [])
  }

  /** createEmptyResult: zero metrics, a signal quality of 0, LOW risk, and the device's last breath passed through. */
  function EmptyResult(lastBreathTimestamp: Option<int>): (r: ProcessingResult)
    ensures r.apneaRisk == Low && r.lastBreathTimestamp == lastBreathTimestamp
    ensures r.metrics.breathingRate == 0.0 && r.metrics.breathLengthMs == 0 && r.metrics.variability == 0.0
    ensures r.metrics.signalQuality == Some(0.0) && r.metrics.breathDepth.None?
  {
    ProcessingResult(ResultMetrics(0.0, 0, 0.0, None, Some(0.0)), Low, lastBreathTimestamp)
  }

  function FullMetrics(m: Metrics.BreathingMetrics): ResultMetrics {
    ResultMetrics(m.breathingRate, m.breathLengthMs, m.variability, Some(m.breathDepth), None)
  }

  /** The last n elements of s (all of s when it is shorter). */
  function LastN<T>(s: seq<T>, n: nat): (r: seq<T>)
    ensures |r| == if |s| <= n then |s| else n
  {
    if |s| <= n then s else s[|s| - n..]
  }

  /** Keeping the last n after each push is the same as keeping the last n of everything pushed. */
  lemma LastNPush<T>(s: seq<T>, x: T, n: nat)
    requires n > 0
    ensures LastN(LastN(s, n) + [x], n) == LastN(s + [x], n)
  {
    var t := LastN(s, n);
    if |s| > n {
      assert (t + [x])[1..] == (s + [x])[|s| + 1 - n..];
    }
  }

  /** `reduce((a, b) => a.timestamp > b.timestamp ? a : b)` with acc as the running winner. */
  function LatestFrom(acc: PeakDetection.Peak, rest: seq<PeakDetection.Peak>): (p: PeakDetection.Peak)
    ensures p == acc || p in rest
    ensures p.timestamp >= acc.timestamp
    ensures forall k :: 0 <= k < |rest| ==> rest[k].timestamp <= p.timestamp
    decreases |rest|
  {
    if rest == [] then acc
    else
      var next := if acc.timestamp > rest[0].timestamp then acc else rest[0];
      var p := LatestFrom(next, rest[1..]);
      assert forall k :: 1 <= k < |rest| ==> rest[k] == rest[1..][k - 1];
      p
  }

  /** The peak with the latest timestamp (on ties, the later one in the sequence). */
  function LatestPeak(peaks: seq<PeakDetection.Peak>): (p: PeakDetection.Peak)
    requires |peaks| > 0
    ensures p in peaks
    ensures forall k :: 0 <= k < |peaks| ==> peaks[k].timestamp <= p.timestamp
  {
    var p := LatestFrom(peaks[0], peaks[1..]);
    assert forall k :: 1 <= k < |peaks| ==> peaks[k] == peaks[1..][k - 1];
    assert peaks == [peaks[0]] + peaks[1..];
    p
  }

  /** JavaScript truthiness of `state.lastBreathTimestamp`: null and 0 are false. */
  predicate HasLastBreath(lastBreathTimestamp: Option<int>) {
    lastBreathTimestamp.Some? && lastBreathTimestamp.value != 0
  }

  /** Milliseconds since the last breath: (Date.now() / 1000 - last) * 1000, on exact reals. */
  function MsSinceLastBreath(lastBreath: int, nowMs: int): real {
    (nowMs as real / 1000.0 - lastBreath as real) * 1000.0
  }

  /**
   * evaluateApneaRisk: poor signal first, then the breath gap (HIGH beyond the threshold,
   * MEDIUM beyond 70% of it), then a slow rate, else LOW. A signal quality that is absent
   * (undefined in the source) never compares below the minimum.
   */
  function EvaluateApneaRisk(lastBreathTimestamp: Option<int>, signalQuality: Option<real>, breathingRate: real, nowMs: int): (risk: ApneaRiskLevel)
    ensures signalQuality.Some? && signalQuality.value < BackendConfig.MinSignalQuality ==> risk == Medium
    ensures risk == High <==>
      && !(signalQuality.Some? && signalQuality.value < BackendConfig.MinSignalQuality)
      && HasLastBreath(lastBreathTimestamp)
      && MsSinceLastBreath(lastBreathTimestamp.value, nowMs) > BackendConfig.ApneaThresholdMs as real
    ensures risk == Low <==>
      && !(signalQuality.Some? && signalQuality.value < BackendConfig.MinSignalQuality)
      && (HasLastBreath(lastBreathTimestamp) ==> MsSinceLastBreath(lastBreathTimestamp.value, nowMs) <= BackendConfig.ApneaThresholdMs as real * 0.7)
      && breathingRate >= BackendConfig.MinBreathingRate
  {
    if signalQuality.Some? && signalQuality.value < BackendConfig.MinSignalQuality then Medium
    else if HasLastBreath(lastBreathTimestamp) && MsSinceLastBreath(lastBreathTimestamp.value, nowMs) > BackendConfig.ApneaThresholdMs as real then High
    else if HasLastBreath(lastBreathTimestamp) && MsSinceLastBreath(lastBreathTimestamp.value, nowMs) > BackendConfig.ApneaThresholdMs as real * 0.7 then Medium
    else if breathingRate < BackendConfig.MinBreathingRate then Medium
    else Low
  }

  /** Poor signal wins even over a breath gap far beyond the threshold. */
  lemma PoorSignalOutranksGap(lastBreath: int, q: real, breathingRate: real, nowMs: int)
    requires q < BackendConfig.MinSignalQuality && lastBreath != 0
    requires MsSinceLastBreath(lastBreath, nowMs) > BackendConfig.ApneaThresholdMs as real
    ensures EvaluateApneaRisk(Some(lastBreath), Some(q), breathingRate, nowMs) == Medium
  {
  }

  /** With no last breath (null or 0), the gap is never looked at and the risk is never HIGH. */
  lemma NoLastBreathNeverHigh(lastBreathTimestamp: Option<int>, signalQuality: Option<real>, breathingRate: real, nowMs: int)
    requires !HasLastBreath(lastBreathTimestamp)
    ensures EvaluateApneaRisk(lastBreathTimestamp, signalQuality, breathingRate, nowMs) != High
    ensures EvaluateApneaRisk(lastBreathTimestamp, signalQuality, breathingRate, nowMs)
      == if signalQuality.Some? && signalQuality.value < BackendConfig.MinSignalQuality then Medium
         else if breathingRate < BackendConfig.MinBreathingRate then Medium else Low
  {
  }

  /** getTimeWindowSeconds: latest minus earliest timestamp; 0 for fewer than two samples. */
  function TimeWindowSeconds(samples: seq<RawBreathSample>): (w: int)
    ensures w >= 0
  {
    if |samples| < 2 then 0
    else
      var sorted := SortBy(samples, SampleTime);
      sorted[|sorted| - 1].timestamp - sorted[0].timestamp
  }

  /** The window is the spread of the buffer's timestamps: no two samples are further apart, and two are exactly that far apart. */
  lemma TimeWindowIsSpread(samples: seq<RawBreathSample>) returns (latest: nat, earliest: nat)
    requires |samples| >= 2
    ensures latest < |samples| && earliest < |samples|
    ensures TimeWindowSeconds(samples) == samples[latest].timestamp - samples[earliest].timestamp
    ensures forall k, l :: 0 <= k < |samples| && 0 <= l < |samples| ==>
      samples[k].timestamp - samples[l].timestamp <= TimeWindowSeconds(samples)
  {
    var s := SortBy(samples, SampleTime);
    assert s[0] in multiset(samples) && s[|s| - 1] in multiset(samples);
    latest :| 0 <= latest < |samples| && samples[latest] == s[|s| - 1];
    earliest :| 0 <= earliest < |samples| && samples[earliest] == s[0];
    forall k | 0 <= k < |samples|
      ensures s[0].timestamp <= samples[k].timestamp <= s[|s| - 1].timestamp
    {
      assert samples[k] in multiset(s);
      var i :| 0 <= i < |s| && s[i] == samples[k];
      assert SampleTime(s[0]) <= SampleTime(s[i]) <= SampleTime(s[|s| - 1]);
    }
  }

  /** The last breath a device had before a call: its state's value, or null for a new device. */
  function PreviousLastBreath(states: map<string, ProcessingState>, deviceId: string): Option<int> {
    if deviceId in states then states[deviceId].lastBreathTimestamp else None
  }

  /** What process returns and records once the buffer holds at least 10 samples. */
  function FullOutcome(buffer: seq<RawBreathSample>, previous: Option<int>, nowMs: int, sqrt: real -> real): (r: ProcessingResult)
    ensures r.metrics.signalQuality.None? && r.metrics.breathDepth.Some?
    ensures PeakDetection.DetectionOf(PeakDetection.DefaultDetector, buffer).peaks == [] ==> r.lastBreathTimestamp == previous
    ensures PeakDetection.DetectionOf(PeakDetection.DefaultDetector, buffer).peaks != [] ==>
      r.lastBreathTimestamp == Some(LatestPeak(PeakDetection.DetectionOf(PeakDetection.DefaultDetector, buffer).peaks).timestamp)
    ensures r.apneaRisk == EvaluateApneaRisk(r.lastBreathTimestamp, None, r.metrics.breathingRate, nowMs)
  {
    var peaks := PeakDetection.DetectionOf(PeakDetection.DefaultDetector, buffer).peaks;
    var metrics := Metrics.BreathingMetrics(
      Metrics.BreathingRate(peaks, TimeWindowSeconds(buffer) as real), Metrics.MeanBreathLengthMs(peaks),
      Metrics.VariabilityOf(peaks, sqrt), Metrics.BreathDepth(buffer, peaks));
    var last := if |peaks| > 0 then Some(LatestPeak(peaks).timestamp) else previous;
    ProcessingResult(FullMetrics(metrics), EvaluateApneaRisk(last, None, metrics.breathingRate, nowMs), last)
  }

  /** Since process passes metrics without a signalQuality, its risk never comes from the signal-quality rung. */
  lemma ProcessRiskIgnoresSignalQuality(buffer: seq<RawBreathSample>, previous: Option<int>, nowMs: int, sqrt: real -> real)
    ensures var r := FullOutcome(buffer, previous, nowMs, sqrt);
      r.apneaRisk == EvaluateApneaRisk(r.lastBreathTimestamp, Some(BackendConfig.MinSignalQuality), r.metrics.breathingRate, nowMs)
  {
  }

  /** The trimming loop of process: drop from the front while the buffer is over sampleBufferSize. */
  method Trim(pushed: seq<RawBreathSample>) returns (buffer: seq<RawBreathSample>)
    ensures buffer == LastN(pushed, BackendConfig.SampleBufferSize)
  {
    buffer := pushed;
    while |buffer| > BackendConfig.SampleBufferSize
      invariant LastN(buffer, BackendConfig.SampleBufferSize) == LastN(pushed, BackendConfig.SampleBufferSize)
      decreases |buffer|
    {
      buffer := buffer[1..];
    }
  }

  /** Lines 47-80 of process: detect, calculate, move the last breath to the latest peak and grade the risk. */
  method Analyze(buffer: seq<RawBreathSample>, previous: Option<int>, nowMs: int, sqrt: real -> real) returns (result: ProcessingResult)
    ensures result == FullOutcome(buffer, previous, nowMs, sqrt)
  {
    var detection := PeakDetection.Detect(PeakDetection.DefaultDetector, buffer);
    var peaks := detection.peaks;
    var metrics := Metrics.Calculate(peaks, buffer, TimeWindowSeconds(buffer) as real, sqrt);
    var lastBreathTimestamp := previous;
    if |peaks| > 0 {
      var latestPeak := LatestPeak(peaks);
      lastBreathTimestamp := Some(latestPeak.timestamp);
    }
    var apneaRisk := EvaluateApneaRisk(lastBreathTimestamp, None, metrics.breathingRate, nowMs);
    result := ProcessingResult(FullMetrics(metrics), apneaRisk, lastBreathTimestamp);
  }

  /**
   * process on one device's state: push and trim (lines 27-40), then below 10 samples return the
   * empty result (lines 42-45), else analyze and move the last breath to the latest peak (lines 47-80).
   */
  method Advance(state: ProcessingState, sample: RawBreathSample, nowMs: int, sqrt: real -> real)
    returns (result: ProcessingResult, next: ProcessingState)
    ensures next.deviceId == state.deviceId && next.breathIntervals == state.breathIntervals
    ensures next.sampleBuffer == LastN(state.sampleBuffer + [sample], BackendConfig.SampleBufferSize)
    ensures |next.sampleBuffer| < MinSamplesToProcess ==>
      result == EmptyResult(state.lastBreathTimestamp) && next.lastBreathTimestamp == state.lastBreathTimestamp
    ensures |next.sampleBuffer| >= MinSamplesToProcess ==>
      result == FullOutcome(next.sampleBuffer, state.lastBreathTimestamp, nowMs, sqrt) && next.lastBreathTimestamp == result.lastBreathTimestamp
  {
    var buffer := Trim(state.sampleBuffer + [sample]);
    next := state.(sampleBuffer := buffer);
    if |buffer| < MinSamplesToProcess {
      return EmptyResult(state.lastBreathTimestamp), next;
    }
    result := Analyze(buffer, state.lastBreathTimestamp, nowMs, sqrt);
    next := next.(lastBreathTimestamp := result.lastBreathTimestamp);
  }

  /** Every device's state is under its own id, and its buffer is the last sampleBufferSize samples in its history. */
  ghost predicate Tracks(states: map<string, ProcessingState>, history: map<string, seq<RawBreathSample>>) {
    && states.Keys == history.Keys
    && forall d :: d in states ==>
         && states[d].deviceId == d
         && states[d].sampleBuffer == LastN(history[d], BackendConfig.SampleBufferSize)
  }

  /** Replacing one device's state by one that tracks its new history keeps every device tracked. */
  lemma TracksUpdate(states: map<string, ProcessingState>, history: map<string, seq<RawBreathSample>>,
                     id: string, state: ProcessingState, h: seq<RawBreathSample>)
    requires Tracks(states, history)
    requires state.deviceId == id && state.sampleBuffer == LastN(h, BackendConfig.SampleBufferSize)
    ensures Tracks(states[id := state], history[id := h])
  {
  }

  /** A tracked device's buffer holds its latest min(k, sampleBufferSize) samples of k received, oldest first. */
  lemma TrackedBufferIsLatest(states: map<string, ProcessingState>, history: map<string, seq<RawBreathSample>>, d: string)
    requires Tracks(states, history) && d in states
    ensures |states[d].sampleBuffer| == if |history[d]| <= BackendConfig.SampleBufferSize then |history[d]| else BackendConfig.SampleBufferSize
    ensures forall k :: 0 <= k < |states[d].sampleBuffer| ==>
      states[d].sampleBuffer[k] == history[d][|history[d]| - |states[d].sampleBuffer| + k]
  {
  }

  class ProcessingPipeline {
    var deviceStates: map<string, ProcessingState>
    /** Every sample processed for each device since its state was last created. */
    ghost var received: map<string, seq<RawBreathSample>>

    /** Each device's buffer is the last sampleBufferSize samples it sent, in arrival order. */
    ghost predicate Valid()
      reads this
    {
      Tracks(deviceStates, received)
    }

    constructor ()
      ensures Valid()
      ensures deviceStates == map[] && received == map[]
    {
      deviceStates := map[];
      received := map[];
    }

    /** The state of one device, as getDeviceState returns it (None for undefined). */
    function DeviceState(deviceId: string): (r: Option<ProcessingState>)
      reads this
      ensures r.Some? <==> deviceId in deviceStates
      ensures r.Some? ==> r.value == deviceStates[deviceId]
    {
      if deviceId in deviceStates then Some(deviceStates[deviceId]) else None
    }

    /** process: push the sample onto its device's buffer, trim it, and run detection once there are 10 samples. */
    method Process(sample: RawBreathSample, nowMs: int, sqrt: real -> real) returns (result: ProcessingResult)
      requires Valid()
      modifies this
      ensures Valid()
      ensures sample.deviceId in deviceStates
      ensures deviceStates == old(deviceStates)[sample.deviceId := deviceStates[sample.deviceId]]
      ensures received == old(received)[sample.deviceId := (if sample.deviceId in old(received) then old(received[sample.deviceId]) else []) + [sample]]
      ensures deviceStates[sample.deviceId].breathIntervals == (if sample.deviceId in old(deviceStates) then old(deviceStates[sample.deviceId].breathIntervals) else [])
      ensures var buffer := deviceStates[sample.deviceId].sampleBuffer;
        && (|buffer| < MinSamplesToProcess ==>
              && result == EmptyResult(PreviousLastBreath(old(deviceStates), sample.deviceId))
              && deviceStates[sample.deviceId].lastBreathTimestamp == PreviousLastBreath(old(deviceStates), sample.deviceId))
        && (|buffer| >= MinSamplesToProcess ==>
              && result == FullOutcome(buffer, PreviousLastBreath(old(deviceStates), sample.deviceId), nowMs, sqrt)
              && deviceStates[sample.deviceId].lastBreathTimestamp == result.lastBreathTimestamp)
    {
      var id := sample.deviceId;
      var state := InitialState(id);
      ghost var previous: seq<RawBreathSample> := [];
      if id in deviceStates {
        state := deviceStates[id];
        previous := received[id];
      }
      LastNPush(previous, sample, BackendConfig.SampleBufferSize);
      var next;
      result, next := Advance(state, sample, nowMs, sqrt);
      TracksUpdate(deviceStates, received, id, next, previous + [sample]);
      deviceStates := deviceStates[id := next];
      received := received[id := previous + [sample]];
    }

    /** clearDeviceState: forget one device; the others keep their state. */
    method ClearDeviceState(deviceId: string)
      requires Valid()
      modifies this
      ensures Valid()
      ensures deviceStates == old(deviceStates) - {deviceId}
      ensures received == old(received) - {deviceId}
    {
      deviceStates := deviceStates - {deviceId};
      received := received - {deviceId};
    }
  }
}
