/**
 * The device's sampling-and-delivery program (Hardware/src/main.cpp): configuration from the
 * environment, start-up exit codes, and the polling loop with its counters and back-off.
 *
 * The environment is a map, the stop signal is the end of the tick sequence (the flag is read
 * only at the top of each iteration), sleeping is recorded as the `timespec` handed to
 * nanosleep, logging is not modelled, and the 4-decimal rendering of the voltage is a
 * formatter passed in.
 */
module SensorMain {
  import opened Wrappers
  import Text
  import Adc
  import Rest

  const VRef: real := 3.3
  const AdcMax: real := 1023.0
  const PotChannel: bv8 := 0
  const DefaultSpiDevice: string := "/dev/io-spi/spi0/dev0"
  const DefaultPollIntervalMs: int := 250
  const ApiEndpoint: string := "/api/v1/breathing/raw"
  const BackoffMs: int := 5000
  const BackoffThreshold: nat := 10
  const U32: nat := 0x1_0000_0000

  /** rawToVoltage: a linear map of 0..1023 onto 0..VREF. */
  function RawToVoltage(raw: int): (v: real)
    ensures 0 <= raw <= 1023 ==> 0.0 <= v <= VRef
  {
    (raw as real / AdcMax) * VRef
  }

  lemma RawToVoltageEnds()
    ensures RawToVoltage(0) == 0.0
    ensures RawToVoltage(1023) == VRef
    ensures VRef / 2.0 - 0.01 < RawToVoltage(512) < VRef / 2.0 + 0.01
  {
  }

  lemma RawToVoltageMonotone(a: int, b: int)
    requires a < b
    ensures RawToVoltage(a) < RawToVoltage(b)
  {
  }

  const RawKey: string := "{\"raw\":"
  const VoltageKey: string := ",\"voltage\":"

  /** buildJsonPayload: `raw` first, then `voltage` as the formatter renders it. */
  function BuildJsonPayload(raw: nat, voltageText: string): (payload: string)
    ensures RawKey + Text.NatToString(raw) + VoltageKey <= payload
    ensures payload[|payload| - 1] == '}'
    ensures |payload| == |RawKey| + |Text.NatToString(raw)| + |VoltageKey| + |voltageText| + 1
  {
    RawKey + Text.NatToString(raw) + VoltageKey + voltageText + "}"
  }

  /** Reads a payload back: the digits after `{"raw":` up to the first ',', then the voltage text up to the closing '}'. */
  function ParsePayload(payload: string): Option<(nat, string)> {
    if !(RawKey <= payload) then None
    else
      var rest := payload[|RawKey|..];
      var digits := Text.DigitPrefix(rest);
      var tail := rest[|digits|..];
      if digits == [] || !(VoltageKey <= tail) then None
      else
        var v := tail[|VoltageKey|..];
        if v == [] || v[|v| - 1] != '}' then None
        else Some((Text.DigitsValue(digits), v[..|v| - 1]))
  }

  lemma {:induction false} DigitPrefixStopsAt(digits: string, rest: string)
    requires Text.AllDigits(digits)
    requires rest != [] && !Text.IsDigit(rest[0])
    ensures Text.DigitPrefix(digits + rest) == digits
  {
    if digits != [] {
      assert (digits + rest)[1..] == digits[1..] + rest;
      DigitPrefixStopsAt(digits[1..], rest);
    }
  }

  /** The payload carries both fields, `raw` before `voltage`, and they read back unchanged. */
  lemma PayloadRoundTrip(raw: nat, voltageText: string)
    ensures ParsePayload(BuildJsonPayload(raw, voltageText)) == Some((raw, voltageText))
  {
    var digits := Text.NatToString(raw);
    assert BuildJsonPayload(raw, voltageText) == RawKey + (digits + (VoltageKey + (voltageText + "}")));
    ParseBuilt(digits, voltageText);
    Text.NatToStringRoundTrip(raw);
  }

  /** Parsing a payload laid out as buildJsonPayload lays it out gives back the digits' value and the voltage text. */
  lemma ParseBuilt(digits: string, voltageText: string)
    requires digits != [] && Text.AllDigits(digits)
    ensures ParsePayload(RawKey + (digits + (VoltageKey + (voltageText + "}")))) == Some((Text.DigitsValue(digits), voltageText))
  {
    var v := voltageText + "}";
    var tail := VoltageKey + v;
    var rest := digits + tail;
    var p := RawKey + rest;
    assert RawKey <= p && p[|RawKey|..] == rest;
    assert tail[0] == ',';
    DigitPrefixStopsAt(digits, tail);
    assert rest[|digits|..] == tail;
    assert VoltageKey <= tail && tail[|VoltageKey|..] == v;
    assert v[|v| - 1] == '}' && v[..|v| - 1] == voltageText;
  }

  /** C's `/` and `%` on int truncate toward zero. */
  function CDiv(a: int, b: int): int
    requires b > 0
  {
    if a >= 0 then a / b else -((-a) / b)
  }

  function CRem(a: int, b: int): int
    requires b > 0
  {
    a - CDiv(a, b) * b
  }

  datatype Timespec = Timespec(tvSec: int, tvNsec: int)

  /** sleepMs's split of milliseconds into the timespec given to nanosleep. */
  function SleepMs(ms: int): (ts: Timespec)
    ensures ts.tvSec * 1000 + ts.tvNsec / 1000000 == ms
    ensures ts.tvNsec % 1000000 == 0
    ensures -1000000000 < ts.tvNsec < 1000000000
    ensures ms >= 0 ==> 0 <= ts.tvNsec < 1000000000 && ts.tvSec >= 0
  {
    Timespec(CDiv(ms, 1000), CRem(ms, 1000) * 1000000)
  }

  /** getEnvOrDefault: the variable when it is set and non-empty, else the default (None is nullptr). */
  function GetEnvOrDefault(env: map<string, string>, name: string, default: Option<string>): (r: Option<string>)
    ensures r.Some? && r != default ==> name in env && r.value == env[name] && r.value != ""
    ensures name in env && env[name] != "" ==> r == Some(env[name])
    ensures (name !in env || env[name] == "") ==> r == default
  {
    if name in env && env[name] != "" then Some(env[name]) else default
  }

  /**
   * The poll interval start-up settles on: 250 unless POLL_INTERVAL_MS is set and atoi, with its
   * 32-bit `int` result, reads a positive number.
   */
  function PollInterval(env: map<string, string>): (ms: int)
    ensures 0 < ms <= Text.IntMax
    ensures ms == DefaultPollIntervalMs || ("POLL_INTERVAL_MS" in env && ms == Text.CAtoi(env["POLL_INTERVAL_MS"]))
    ensures "POLL_INTERVAL_MS" in env && Text.CAtoi(env["POLL_INTERVAL_MS"]) > 0 ==> ms == Text.CAtoi(env["POLL_INTERVAL_MS"])
    ensures "POLL_INTERVAL_MS" !in env || env["POLL_INTERVAL_MS"] == "" ==> ms == DefaultPollIntervalMs
  {
    var s := GetEnvOrDefault(env, "POLL_INTERVAL_MS", None);
    if s.None? then DefaultPollIntervalMs
    else
      var n := Text.CAtoi(s.value);
      if n <= 0 then DefaultPollIntervalMs else n
  }

  /**
   * POLL_INTERVAL_MS set to the decimal text of n: n itself when 0 < n <= INT_MAX; beyond INT_MAX
   * the 32-bit wrap of n when that is positive; 250 otherwise.
   */
  lemma PollIntervalOfNumber(env: map<string, string>, n: nat)
    requires "POLL_INTERVAL_MS" in env && env["POLL_INTERVAL_MS"] == Text.NatToString(n)
    ensures 0 < n <= Text.IntMax ==> PollInterval(env) == n
    ensures n == 0 ==> PollInterval(env) == DefaultPollIntervalMs
    ensures n > Text.IntMax ==> PollInterval(env) == (var w := Text.WrapInt32(Text.ClampLong(n)); if w > 0 then w else DefaultPollIntervalMs)
  {
    Text.AtoiOfNatToString(n);
  }

  /**
   * A decimal number above INT_MAX but below 2^32 (3000000000, say) wraps to a negative `int`,
   * so the interval falls back to 250.
   */
  lemma PollIntervalWrapsNegative(env: map<string, string>, n: nat)
    requires Text.IntMax < n < 0x1_0000_0000
    requires "POLL_INTERVAL_MS" in env && env["POLL_INTERVAL_MS"] == Text.NatToString(n)
    ensures PollInterval(env) == DefaultPollIntervalMs
  {
    PollIntervalOfNumber(env, n);
    Text.WrapInt32Upper(n);
  }

  /** What one iteration of the loop comes to, as the counters see it. */
  datatype Outcome =
    | ReadException          // readChannel threw; nothing was posted
    | Exchanged(httpCode: int) // post returned with success == true (any status)
    | PostFailed             // post returned with success == false

  /** How an iteration ends, given whether the ADC is open, whether the client holds a handle, and the tick's answers. */
  function OutcomeOf(adcOpen: bool, clientReady: bool, ex: Adc.Exchange, t: Rest.Transfer): Outcome {
    if !adcOpen || Adc.TransferError(ex, Adc.SpiTransferSize).Some? then ReadException
    else if !clientReady then PostFailed
    else match t.end
      case CurlFailed(_) => PostFailed
      case CurlCompleted(code) => Exchanged(code)
  }

  datatype Counters = Counters(sampleCount: nat, errorCount: nat) {
    predicate Valid() {
      sampleCount < U32 && errorCount < U32
    }
  }

  /** uint32_t increment. */
  function Inc(x: nat): nat
    requires x < U32
  {
    (x + 1) % U32
  }

  predicate BacksOff(c: Counters, o: Outcome)
    requires c.Valid()
  {
    o.PostFailed? && Inc(c.errorCount) > BackoffThreshold
  }

  /** The counters after one iteration with outcome o. */
  function Step(c: Counters, o: Outcome): (r: Counters)
    requires c.Valid()
    ensures r.Valid()
  {
    match o
    case ReadException => c.(errorCount := Inc(c.errorCount))
    case Exchanged(_) => c.(sampleCount := Inc(c.sampleCount))
    case PostFailed =>
      var e := Inc(c.errorCount);
      Counters(Inc(c.sampleCount), if e > BackoffThreshold then 0 else e)
  }

  /** The sleeps of one iteration: the back-off pause when it is taken, then the poll interval. */
  function StepSleeps(c: Counters, o: Outcome, pollMs: int): seq<Timespec>
    requires c.Valid()
  {
    (if BacksOff(c, o) then [SleepMs(BackoffMs)] else []) + [SleepMs(pollMs)]
  }

  function Run(c: Counters, outcomes: seq<Outcome>): (r: Counters)
    requires c.Valid()
    ensures r.Valid()
    decreases |outcomes|
  {
    if outcomes == [] then c else Run(Step(c, outcomes[0]), outcomes[1..])
  }

  function RunSleeps(c: Counters, outcomes: seq<Outcome>, pollMs: int): seq<Timespec>
    requires c.Valid()
    decreases |outcomes|
  {
    if outcomes == [] then [] else StepSleeps(c, outcomes[0], pollMs) + RunSleeps(Step(c, outcomes[0]), outcomes[1..], pollMs)
  }

  function Backoffs(c: Counters, outcomes: seq<Outcome>): nat
    requires c.Valid()
    decreases |outcomes|
  {
    if outcomes == [] then 0 else (if BacksOff(c, outcomes[0]) then 1 else 0) + Backoffs(Step(c, outcomes[0]), outcomes[1..])
  }

  /** sampleCount counts every iteration whose read and post both returned; a read exception leaves it alone. */
  lemma StepSampleCount(c: Counters, o: Outcome)
    requires c.Valid()
    ensures Step(c, o).sampleCount == if o.ReadException? then c.sampleCount else Inc(c.sampleCount)
  {
  }

  /** errorCount: unchanged by any completed exchange (2xx or not), up by one on a failure, and reset only by the back-off. */
  lemma StepErrorCount(c: Counters, o: Outcome)
    requires c.Valid()
    ensures o.Exchanged? ==> Step(c, o).errorCount == c.errorCount
    ensures o.ReadException? ==> Step(c, o).errorCount == Inc(c.errorCount)
    ensures o.PostFailed? ==> Step(c, o).errorCount == if BacksOff(c, o) then 0 else Inc(c.errorCount)
    ensures o.PostFailed? ==> Step(c, o).errorCount <= BackoffThreshold
  {
  }

  /** Every iteration sleeps the poll interval exactly once, last; the 5000 ms pause comes only from a failed post that pushed errorCount above 10. */
  lemma StepSleepsShape(c: Counters, o: Outcome, pollMs: int)
    requires c.Valid()
    ensures var s := StepSleeps(c, o, pollMs);
      && s[|s| - 1] == SleepMs(pollMs)
      && (|s| == 2 <==> BacksOff(c, o))
      && (|s| == 2 ==> s[0] == SleepMs(BackoffMs) && o.PostFailed?)
      && |s| <= 2
  {
  }

  lemma {:induction false} RunSleepsCount(c: Counters, outcomes: seq<Outcome>, pollMs: int)
    requires c.Valid()
    ensures |RunSleeps(c, outcomes, pollMs)| == |outcomes| + Backoffs(c, outcomes)
    decreases |outcomes|
  {
    if outcomes != [] {
      RunSleepsCount(Step(c, outcomes[0]), outcomes[1..], pollMs);
    }
  }

  /** Without read exceptions, errorCount never climbs above 10. */
  lemma {:induction false} NoReadExceptionsBoundErrors(c: Counters, outcomes: seq<Outcome>)
    requires c.Valid() && c.errorCount <= BackoffThreshold
    requires forall i :: 0 <= i < |outcomes| ==> !outcomes[i].ReadException?
    ensures Run(c, outcomes).errorCount <= BackoffThreshold
    decreases |outcomes|
  {
    if outcomes != [] {
      NoReadExceptionsBoundErrors(Step(c, outcomes[0]), outcomes[1..]);
    }
  }

  function Repeat(o: Outcome, n: nat): (s: seq<Outcome>)
    ensures |s| == n && forall i :: 0 <= i < n ==> s[i] == o
  {
    if n == 0 then [] else [o] + Repeat(o, n - 1)
  }

  lemma {:induction false} RepeatedFailures(c: Counters, o: Outcome, n: nat)
    requires c.Valid() && !o.Exchanged?
    requires c.sampleCount + n < U32 && c.errorCount + n <= BackoffThreshold
    ensures Run(c, Repeat(o, n)) == Counters(if o.PostFailed? then c.sampleCount + n else c.sampleCount, c.errorCount + n)
    ensures Backoffs(c, Repeat(o, n)) == 0
    decreases n
  {
    if n > 0 {
      var s := Repeat(o, n);
      assert s[1..] == Repeat(o, n - 1);
      RepeatedFailures(Step(c, o), o, n - 1);
    }
  }

  /** Eleven failed posts in a row from a clean start: one back-off, and errorCount is back to 0. */
  lemma ElevenPostFailuresBackOffOnce()
    ensures Run(Counters(0, 0), Repeat(PostFailed, 11)) == Counters(11, 0)
    ensures Backoffs(Counters(0, 0), Repeat(PostFailed, 11)) == 1
  {
    var s := Repeat(PostFailed, 11);
    assert s == Repeat(PostFailed, 10) + [PostFailed];
    RepeatedFailures(Counters(0, 0), PostFailed, 10);
    RunSplit(Counters(0, 0), Repeat(PostFailed, 10), [PostFailed]);
  }

  /** Eleven read exceptions in a row: no back-off is taken and errorCount stays at 11. */
  lemma ElevenReadExceptionsNoBackoff()
    ensures Run(Counters(0, 0), Repeat(ReadException, 11)) == Counters(0, 11)
    ensures Backoffs(Counters(0, 0), Repeat(ReadException, 11)) == 0
  {
    var s := Repeat(ReadException, 11);
    assert s == Repeat(ReadException, 10) + [ReadException];
    RepeatedFailures(Counters(0, 0), ReadException, 10);
    RunSplit(Counters(0, 0), Repeat(ReadException, 10), [ReadException]);
  }

  lemma {:induction false} RunSplit(c: Counters, a: seq<Outcome>, b: seq<Outcome>)
    requires c.Valid()
    ensures Run(c, a + b) == Run(Run(c, a), b)
    ensures Backoffs(c, a + b) == Backoffs(c, a) + Backoffs(Run(c, a), b)
    decreases |a|
  {
    if a != [] {
      assert (a + b)[1..] == a[1..] + b;
      RunSplit(Step(c, a[0]), a[1..], b);
    } else {
      assert a + b == b;
    }
  }

  /** One more iteration at the end steps the counters once more and appends that iteration's sleeps. */
  lemma {:induction false} RunSnoc(c: Counters, a: seq<Outcome>, o: Outcome, pollMs: int)
    requires c.Valid()
    ensures Run(c, a + [o]) == Step(Run(c, a), o)
    ensures RunSleeps(c, a + [o], pollMs) == RunSleeps(c, a, pollMs) + StepSleeps(Run(c, a), o, pollMs)
    decreases |a|
  {
    if a == [] {
      assert [] + [o] == [o];
    } else {
      assert (a + [o])[1..] == a[1..] + [o];
      RunSnoc(Step(c, a[0]), a[1..], o, pollMs);
    }
  }

  /** Statuses 200, 200, 404 all count as samples and none as errors. */
  lemma ThreeExchangesScenario()
    ensures Run(Counters(0, 0), [Exchanged(200), Exchanged(200), Exchanged(404)]) == Counters(3, 0)
  {
  }

  /** One iteration's stimuli: the kernel's answers for the SPI exchange and libcurl's for the post. */
  datatype Tick = Tick(ex: Adc.Exchange, transfer: Rest.Transfer)

  predicate TickWellFormed(t: Tick) {
    Adc.WithinLength(t.ex, Adc.SpiTransferSize) && Rest.WellFormed(t.transfer)
  }

  function Outcomes(adcOpen: bool, clientReady: bool, ticks: seq<Tick>): (os: seq<Outcome>)
    ensures |os| == |ticks|
    ensures forall i :: 0 <= i < |ticks| ==> os[i] == OutcomeOf(adcOpen, clientReady, ticks[i].ex, ticks[i].transfer)
  {
    if ticks == [] then [] else [OutcomeOf(adcOpen, clientReady, ticks[0].ex, ticks[0].transfer)] + Outcomes(adcOpen, clientReady, ticks[1..])
  }

  /** The POSIX calls of one iteration: none while the ADC is closed, else the request frame for the potentiometer's channel and, after a full write, one read. */
  function TickOsCalls(fd: int, ex: Adc.Exchange): (calls: seq<Adc.PosixCall>)
    ensures fd < 0 <==> calls == []
    ensures calls != [] ==> calls[0] == Adc.WriteCall(fd, Adc.RequestFrame(PotChannel))
    ensures |calls| == 2 <==> fd >= 0 && ex.write == Adc.Wrote(Adc.SpiTransferSize)
  {
    if fd < 0 then []
    else [Adc.WriteCall(fd, Adc.RequestFrame(PotChannel))] + (if ex.write == Adc.Wrote(Adc.SpiTransferSize) then [Adc.ReadCall(fd, Adc.SpiTransferSize)] else [])
  }

  /** The sample one iteration reads: present exactly when the ADC is open and the exchange moved all bytes. */
  function TickReading(fd: int, ex: Adc.Exchange): (raw: Option<int>)
    ensures raw.Some? <==> fd >= 0 && Adc.TransferError(ex, Adc.SpiTransferSize).None?
    ensures raw.Some? ==> 0 <= raw.value <= Adc.MaxValue
  {
    if fd >= 0 && Adc.TransferError(ex, Adc.SpiTransferSize).None? then Some(Adc.DecodeResponse(ex.read.bytes)) else None
  }

  /** The request one iteration has libcurl perform: none after a read exception or without a handle. */
  function TickRequests(fd: int, handle: Option<nat>, baseUrl: string, timeout: int, connectTimeout: int,
                        formatVoltage: real -> string, ex: Adc.Exchange): (rs: seq<Rest.Request>)
    ensures |rs| <= 1
    ensures rs != [] <==> TickReading(fd, ex).Some? && handle.Some?
  {
    var raw := TickReading(fd, ex);
    if raw.Some? && handle.Some? then
      [Rest.Request(handle.value, Rest.JoinUrl(baseUrl, ApiEndpoint), BuildJsonPayload(raw.value, formatVoltage(RawToVoltage(raw.value))), timeout, connectTimeout)]
    else []
  }

  /** The posted request goes to the raw-sample endpoint, and its payload reads back as the sample and the voltage it converts to. */
  lemma TickRequestCarriesReading(fd: int, handle: Option<nat>, baseUrl: string, timeout: int, connectTimeout: int,
                                  formatVoltage: real -> string, ex: Adc.Exchange)
    requires TickRequests(fd, handle, baseUrl, timeout, connectTimeout, formatVoltage, ex) != []
    ensures var r := TickRequests(fd, handle, baseUrl, timeout, connectTimeout, formatVoltage, ex)[0];
      var raw := TickReading(fd, ex).value;
      && r.url == Rest.JoinUrl(baseUrl, ApiEndpoint) && r.timeout == timeout && r.connectTimeout == connectTimeout
      && ParsePayload(r.body) == Some((raw, formatVoltage(RawToVoltage(raw))))
  {
    var raw := TickReading(fd, ex).value;
    PayloadRoundTrip(raw, formatVoltage(RawToVoltage(raw)));
  }

  /** The POSIX calls of the first n iterations, oldest first. */
  function RunOsCalls(fd: int, ticks: seq<Tick>, n: nat): (calls: seq<Adc.PosixCall>)
    requires n <= |ticks|
    ensures |calls| <= 2 * n
    ensures fd < 0 ==> calls == []
  {
    if n == 0 then [] else RunOsCalls(fd, ticks, n - 1) + TickOsCalls(fd, ticks[n - 1].ex)
  }

  /** The requests of the first n iterations, oldest first: at most one per iteration, and none while the ADC is closed or there is no handle. */
  function RunRequests(fd: int, handle: Option<nat>, baseUrl: string, timeout: int, connectTimeout: int,
                       formatVoltage: real -> string, ticks: seq<Tick>, n: nat): (rs: seq<Rest.Request>)
    requires n <= |ticks|
    ensures |rs| <= n
    ensures fd < 0 || handle.None? ==> rs == []
  {
    if n == 0 then []
    else RunRequests(fd, handle, baseUrl, timeout, connectTimeout, formatVoltage, ticks, n - 1)
         + TickRequests(fd, handle, baseUrl, timeout, connectTimeout, formatVoltage, ticks[n - 1].ex)
  }

  /** One pass of the loop body: read the potentiometer, post the sample, update the counters, sleep. */
  method PollOnce(adc: Adc.Mcp3008, client: Rest.RestClient, pollIntervalMs: int, formatVoltage: real -> string,
                  before: Counters, tick: Tick)
    returns (after: Counters, slept: seq<Timespec>)
    requires before.Valid() && TickWellFormed(tick)
    modifies adc.os, client.lib
    ensures after == Step(before, OutcomeOf(adc.fd >= 0, client.handle.Some?, tick.ex, tick.transfer))
    ensures slept == StepSleeps(before, OutcomeOf(adc.fd >= 0, client.handle.Some?, tick.ex, tick.transfer), pollIntervalMs)
    ensures adc.os.calls == old(adc.os.calls) + TickOsCalls(adc.fd, tick.ex)
    ensures client.lib.performed == old(client.lib.performed)
      + TickRequests(adc.fd, client.handle, client.baseUrl, client.timeout, client.connectTimeout, formatVoltage, tick.ex)
    ensures client.lib.cleanedUp == old(client.lib.cleanedUp) && client.lib.globalInit == old(client.lib.globalInit)
  {
    var sampleCount, errorCount := before.sampleCount, before.errorCount;
    slept := [];
    var raw := adc.ReadChannel(PotChannel, tick.ex);
    if raw.Err? {
      errorCount := Inc(errorCount);
    } else {
      var voltage := RawToVoltage(raw.value);
      var payload := BuildJsonPayload(raw.value, formatVoltage(voltage));
      var response := client.Post(ApiEndpoint, payload, tick.transfer);
      sampleCount := Inc(sampleCount);
      if !response.success {
        errorCount := Inc(errorCount);
        if errorCount > BackoffThreshold {
          slept := slept + [SleepMs(BackoffMs)];
          errorCount := 0;
        }
      }
    }
    slept := slept + [SleepMs(pollIntervalMs)];
    after := Counters(sampleCount, errorCount);
  }

  lemma TakeSnoc<T>(s: seq<T>, i: nat)
    requires i < |s|
    ensures s[..i + 1] == s[..i] + [s[i]]
  {
  }

  lemma TakeAll<T>(s: seq<T>)
    ensures s[..|s|] == s
  {
  }

  /**
   * The loop's state after its first i iterations, starting from the POSIX log calls0 and the
   * libcurl log performed0: the counters and sleeps of those iterations' outcomes, and the calls
   * and requests they made.
   */
  ghost predicate Polled(adc: Adc.Mcp3008, client: Rest.RestClient, pollIntervalMs: int, formatVoltage: real -> string,
                         ticks: seq<Tick>, i: nat, counters: Counters, sleeps: seq<Timespec>,
                         calls0: seq<Adc.PosixCall>, performed0: seq<Rest.Request>)
    reads adc, adc.os, client, client.lib
  {
    && i <= |ticks|
    && counters == Run(Counters(0, 0), Outcomes(adc.fd >= 0, client.handle.Some?, ticks)[..i])
    && sleeps == RunSleeps(Counters(0, 0), Outcomes(adc.fd >= 0, client.handle.Some?, ticks)[..i], pollIntervalMs)
    && adc.os.calls == calls0 + RunOsCalls(adc.fd, ticks, i)
    && client.lib.performed == performed0
       + RunRequests(adc.fd, client.handle, client.baseUrl, client.timeout, client.connectTimeout, formatVoltage, ticks, i)
  }

  /** Iteration i of the loop: PollOnce on tick i takes the state of i iterations to that of i + 1. */
  method PollIteration(adc: Adc.Mcp3008, client: Rest.RestClient, pollIntervalMs: int, formatVoltage: real -> string,
                       ticks: seq<Tick>, i: nat, counters: Counters, sleeps: seq<Timespec>,
                       ghost calls0: seq<Adc.PosixCall>, ghost performed0: seq<Rest.Request>)
    returns (counters': Counters, sleeps': seq<Timespec>)
    requires i < |ticks| && TickWellFormed(ticks[i])
    requires Polled(adc, client, pollIntervalMs, formatVoltage, ticks, i, counters, sleeps, calls0, performed0)
    modifies adc.os, client.lib
    ensures Polled(adc, client, pollIntervalMs, formatVoltage, ticks, i + 1, counters', sleeps', calls0, performed0)
    ensures client.lib.cleanedUp == old(client.lib.cleanedUp) && client.lib.globalInit == old(client.lib.globalInit)
  {
    ghost var all := Outcomes(adc.fd >= 0, client.handle.Some?, ticks);
    var slept;
    counters', slept := PollOnce(adc, client, pollIntervalMs, formatVoltage, counters, ticks[i]);
    RunSnoc(Counters(0, 0), all[..i], all[i], pollIntervalMs);
    TakeSnoc(all, i);
    sleeps' := sleeps + slept;
  }

  /** The `while (g_running)` loop, run for one iteration per tick. */
  method PollingLoop(adc: Adc.Mcp3008, client: Rest.RestClient, pollIntervalMs: int, formatVoltage: real -> string, ticks: seq<Tick>)
    returns (counters: Counters, sleeps: seq<Timespec>)
    requires forall i :: 0 <= i < |ticks| ==> TickWellFormed(ticks[i])
    modifies adc.os, client.lib
    ensures counters == Run(Counters(0, 0), Outcomes(adc.fd >= 0, client.handle.Some?, ticks))
    ensures sleeps == RunSleeps(Counters(0, 0), Outcomes(adc.fd >= 0, client.handle.Some?, ticks), pollIntervalMs)
    ensures adc.os.calls == old(adc.os.calls) + RunOsCalls(adc.fd, ticks, |ticks|)
    ensures client.lib.performed == old(client.lib.performed)
      + RunRequests(adc.fd, client.handle, client.baseUrl, client.timeout, client.connectTimeout, formatVoltage, ticks, |ticks|)
    ensures client.lib.cleanedUp == old(client.lib.cleanedUp) && client.lib.globalInit == old(client.lib.globalInit)
  {
    ghost var calls0, performed0 := adc.os.calls, client.lib.performed;
    counters := Counters(0, 0);
    sleeps := [];
    var i := 0;
    while i < |ticks|
      invariant Polled(adc, client, pollIntervalMs, formatVoltage, ticks, i, counters, sleeps, calls0, performed0)
      invariant client.lib.cleanedUp == old(client.lib.cleanedUp) && client.lib.globalInit == old(client.lib.globalInit)
    {
      counters, sleeps := PollIteration(adc, client, pollIntervalMs, formatVoltage, ticks, i, counters, sleeps, calls0, performed0);
      i := i + 1;
    }
    TakeAll(Outcomes(adc.fd >= 0, client.handle.Some?, ticks));
  }

  /** main() from the polling loop on: the loop over the ticks, then the two `unique_ptr` destructors, the client's first. */
  method LoopThenShutDown(adc: Adc.Mcp3008, client: Rest.RestClient, pollIntervalMs: int, formatVoltage: real -> string, ticks: seq<Tick>)
    returns (counters: Counters, sleeps: seq<Timespec>)
    requires forall i :: 0 <= i < |ticks| ==> TickWellFormed(ticks[i])
    modifies adc, adc.os, client, client.lib
    ensures counters == Run(Counters(0, 0), Outcomes(old(adc.fd) >= 0, old(client.handle).Some?, ticks))
    ensures sleeps == RunSleeps(Counters(0, 0), Outcomes(old(adc.fd) >= 0, old(client.handle).Some?, ticks), pollIntervalMs)
    ensures adc.os.calls == old(adc.os.calls) + RunOsCalls(old(adc.fd), ticks, |ticks|)
      + (if old(adc.fd) >= 0 then [Adc.CloseCall(old(adc.fd))] else [])
    ensures client.lib.performed == old(client.lib.performed)
      + RunRequests(old(adc.fd), old(client.handle), old(client.baseUrl), old(client.timeout), old(client.connectTimeout), formatVoltage, ticks, |ticks|)
    ensures !adc.IsOpen() && client.handle.None?
  {
    counters, sleeps := PollingLoop(adc, client, pollIntervalMs, formatVoltage, ticks);
    client.Destroy();
    adc.Destroy();
  }

  /** How the program ends: an exit code, and the loop's final counters when it ran. */
  datatype Exit = Exit(code: int, counters: Option<Counters>)

  /**
   * main(): read the configuration, open the ADC, create the REST client, run the loop, return 0.
   * Missing API URL -> 1, ADC init failure -> 2, client init failure -> 3; every object opened
   * before an exit is destroyed on the way out (the client before the ADC).
   */
  method RunProgram(os: Adc.Posix, lib: Rest.CurlLib, env: map<string, string>,
                    openedFd: int, openReason: string,
                    globalInitOk: bool, globalInitError: string, newHandle: Option<nat>,
                    formatVoltage: real -> string, ticks: seq<Tick>)
    returns (exit: Exit, sleeps: seq<Timespec>)
    requires forall i :: 0 <= i < |ticks| ==> TickWellFormed(ticks[i])
    modifies os, lib
    ensures GetEnvOrDefault(env, "RAILWAY_API_URL", None).None? ==> exit == Exit(1, None) && os.calls == old(os.calls)
    ensures GetEnvOrDefault(env, "RAILWAY_API_URL", None).Some? && openedFd < 0 ==>
      exit == Exit(2, None) && os.calls == old(os.calls) + [Adc.OpenCall(GetEnvOrDefault(env, "SPI_DEVICE", Some(DefaultSpiDevice)).value)]
    ensures GetEnvOrDefault(env, "RAILWAY_API_URL", None).Some? && openedFd >= 0 ==>
      exit.code in {0, 3} && os.calls != [] && os.calls[|os.calls| - 1] == Adc.CloseCall(openedFd)
    ensures GetEnvOrDefault(env, "RAILWAY_API_URL", None).Some? && openedFd >= 0 && ((old(lib.globalInit) || globalInitOk) && newHandle.Some?) ==>
      && exit == Exit(0, Some(Run(Counters(0, 0), Outcomes(true, true, ticks))))
      && sleeps == RunSleeps(Counters(0, 0), Outcomes(true, true, ticks), PollInterval(env))
      && lib.performed == old(lib.performed)
         + RunRequests(openedFd, newHandle, Rest.StripTrailingSlash(GetEnvOrDefault(env, "RAILWAY_API_URL", None).value),
                       Rest.DefaultTimeoutSeconds, Rest.DefaultConnectTimeoutSeconds, formatVoltage, ticks, |ticks|)
    ensures exit.code != 0 ==> sleeps == [] && lib.performed == old(lib.performed)
    ensures GetEnvOrDefault(env, "RAILWAY_API_URL", None).Some? && openedFd >= 0 && !((old(lib.globalInit) || globalInitOk) && newHandle.Some?) ==>
      exit == Exit(3, None)
  {
    var apiUrl := GetEnvOrDefault(env, "RAILWAY_API_URL", None);
    sleeps := [];
    if apiUrl.None? {
      return Exit(1, None), sleeps;
    }
    var spiDevice := GetEnvOrDefault(env, "SPI_DEVICE", Some(DefaultSpiDevice)).value;
    var pollIntervalMs := PollInterval(env);
    var openResult := Adc.Mcp3008.Open(os, spiDevice, openedFd, openReason);
    if openResult.Err? {
      return Exit(2, None), sleeps;
    }
    var adc := openResult.value;
    var created := Rest.RestClient.Create(lib, apiUrl.value, globalInitOk, globalInitError, newHandle);
    if created.Err? {
      adc.Destroy();
      return Exit(3, None), sleeps;
    }
    var client := created.value;
    var counters;
    counters, sleeps := LoopThenShutDown(adc, client, pollIntervalMs, formatVoltage, ticks);
    return Exit(0, Some(counters)), sleeps;
  }
}
