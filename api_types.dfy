/**
 * The request schemas of the API (apps/backend/src/types/api.types.ts) as validating parsers:
 * each accepts exactly what its zod schema accepts and returns the parsed value.
 */
module ApiTypes {
  import opened Wrappers
  import opened Text
  import opened Json
  import opened Domain

  const MaxDeviceIdLength: nat := 64
  const MaxRawValue: int := 4095
  const DefaultHistoryLimit: int := 100
  const MaxHistoryLimit: int := 1000

  /**
   * A string's length as JavaScript reports it: UTF-16 code units, one for a character below
   * U+10000 and two (a surrogate pair) for one above.
   */
  function Utf16Length(s: string): (n: nat)
    ensures |s| <= n <= 2 * |s|
    ensures (forall i :: 0 <= i < |s| ==> s[i] as int < 0x1_0000) ==> n == |s|
  {
    if s == [] then 0 else Utf16Length(s[..|s| - 1]) + (if s[|s| - 1] as int < 0x1_0000 then 1 else 2)
  }

  /** z.string().min(1).max(64), which counts UTF-16 code units. */
  predicate ValidDeviceId(v: Json) {
    v.JString? && 1 <= Utf16Length(v.s) <= MaxDeviceIdLength
  }

  /** z.number().int().positive() */
  predicate ValidTimestamp(v: Json) {
    v.JNumber? && IsInteger(v.n) && v.n > 0.0
  }

  /** z.number().int().min(0).max(4095) */
  predicate ValidRawValue(v: Json) {
    v.JNumber? && IsInteger(v.n) && 0.0 <= v.n <= MaxRawValue as real
  }

  /** RawBreathSampleSchema.parse on a request body; unknown keys are stripped, as zod objects do by default. */
  function ParseRawBreathSample(body: Json): (r: Option<RawBreathSample>)
    ensures r.Some? <==>
      && body.JObject?
      && "deviceId" in body.fields && ValidDeviceId(body.fields["deviceId"])
      && "timestamp" in body.fields && ValidTimestamp(body.fields["timestamp"])
      && "rawValue" in body.fields && ValidRawValue(body.fields["rawValue"])
    ensures r.Some? ==>
      && 1 <= Utf16Length(r.value.deviceId) <= MaxDeviceIdLength && r.value.deviceId == body.fields["deviceId"].s
      && r.value.timestamp > 0 && r.value.timestamp as real == body.fields["timestamp"].n
      && 0 <= r.value.rawValue <= MaxRawValue && r.value.rawValue as real == body.fields["rawValue"].n
  {
    if body.JObject?
       && "deviceId" in body.fields && ValidDeviceId(body.fields["deviceId"])
       && "timestamp" in body.fields && ValidTimestamp(body.fields["timestamp"])
       && "rawValue" in body.fields && ValidRawValue(body.fields["rawValue"])
    then Some(RawBreathSample(body.fields["deviceId"].s, body.fields["timestamp"].n.Floor, body.fields["rawValue"].n.Floor))
    else None
  }

  /** The body a well-formed sample is sent as. */
  function SampleBody(s: RawBreathSample): Json {
    JObject(map["deviceId" := JString(s.deviceId), "timestamp" := JNumber(s.timestamp as real), "rawValue" := JNumber(s.rawValue as real)])
  }

  /** A sample is accepted iff its id has 1..64 UTF-16 code units, its timestamp is positive and its value is in 0..4095; it parses back unchanged. */
  lemma RawSampleRoundTrip(s: RawBreathSample)
    ensures ParseRawBreathSample(SampleBody(s)).Some? <==>
      1 <= Utf16Length(s.deviceId) <= MaxDeviceIdLength && s.timestamp > 0 && 0 <= s.rawValue <= MaxRawValue
    ensures ParseRawBreathSample(SampleBody(s)).Some? ==> ParseRawBreathSample(SampleBody(s)).value == s
  {
    var body := SampleBody(s);
    assert body.fields["timestamp"].n.Floor == s.timestamp;
    assert body.fields["rawValue"].n.Floor == s.rawValue;
  }

  /** 64 characters from outside the Basic Multilingual Plane are 128 code units: too long for the schema. */
  lemma AstralIdsCountTwice(deviceId: string)
    requires |deviceId| == MaxDeviceIdLength && forall i :: 0 <= i < |deviceId| ==> deviceId[i] as int >= 0x1_0000
    ensures !ValidDeviceId(JString(deviceId))
  {
    AstralLength(deviceId);
  }

  lemma {:induction false} AstralLength(s: string)
    requires forall i :: 0 <= i < |s| ==> s[i] as int >= 0x1_0000
    ensures Utf16Length(s) == 2 * |s|
  {
    if s != [] {
      AstralLength(s[..|s| - 1]);
    }
  }

  /** Every 10-bit reading the MCP3008 produces (0..1023) is within the 12-bit range the schema allows. */
  lemma TenBitReadingsAccepted(deviceId: string, timestamp: int, raw: int)
    requires 1 <= Utf16Length(deviceId) <= MaxDeviceIdLength && timestamp > 0 && 0 <= raw <= 1023
    ensures ParseRawBreathSample(SampleBody(RawBreathSample(deviceId, timestamp, raw))) == Some(RawBreathSample(deviceId, timestamp, raw))
  {
    RawSampleRoundTrip(RawBreathSample(deviceId, timestamp, raw));
  }

  /**
   * z.coerce.number() on a query-string value: Number(text). Only the empty string (0) and
   * plain decimal digit strings are read as numbers; every other text is taken as NaN.
   */
  function CoerceNumber(text: string): (r: Option<int>)
    ensures r.Some? ==> r.value >= 0
    ensures text == "" ==> r == Some(0)
  {
    if AllDigits(text) then Some(DigitsValue(text)) else None
  }

  /** The parsed history query. */
  datatype HistoryQuery = HistoryQuery(from: Option<int>, to: Option<int>, limit: int, deviceId: Option<string>)

  /** The query-string values of a history request; None is an absent key. */
  datatype HistoryParams = HistoryParams(from: Option<string>, to: Option<string>, limit: Option<string>, deviceId: Option<string>)

  /** z.coerce.number().int().positive().optional(): absent stays absent, present must coerce to a positive integer. */
  function ParseOptionalPositive(v: Option<string>): (r: Result<Option<int>, string>)
    ensures v.None? ==> r == Ok(None)
    ensures v.Some? && r.Ok? ==> r.value.Some? && r.value.value > 0
    ensures v.Some? ==> (r.Ok? <==> CoerceNumber(v.value).Some? && CoerceNumber(v.value).value > 0)
  {
    if v.None? then Ok(None)
    else
      var n := CoerceNumber(v.value);
      if n.Some? && n.value > 0 then Ok(Some(n.value)) else Err(v.value)
  }

  /** z.coerce.number().int().min(1).max(1000).default(100) */
  function ParseLimit(v: Option<string>): (r: Result<int, string>)
    ensures v.None? ==> r == Ok(DefaultHistoryLimit)
    ensures r.Ok? ==> 1 <= r.value <= MaxHistoryLimit
    ensures v.Some? ==> (r.Ok? <==> CoerceNumber(v.value).Some? && 1 <= CoerceNumber(v.value).value <= MaxHistoryLimit)
  {
    if v.None? then Ok(DefaultHistoryLimit)
    else
      var n := CoerceNumber(v.value);
      if n.Some? && 1 <= n.value <= MaxHistoryLimit then Ok(n.value) else Err(v.value)
  }

  /** HistoryQuerySchema.parse; the failing field is reported by name. No order between from and to is required. */
  function ParseHistoryQuery(q: HistoryParams): (r: Result<HistoryQuery, string>)
    ensures r.Ok? <==> ParseOptionalPositive(q.from).Ok? && ParseOptionalPositive(q.to).Ok? && ParseLimit(q.limit).Ok?
    ensures r.Ok? ==> r.value.deviceId == q.deviceId && 1 <= r.value.limit <= MaxHistoryLimit
  {
    match (ParseOptionalPositive(q.from), ParseOptionalPositive(q.to), ParseLimit(q.limit))
    case (Ok(from), Ok(to), Ok(limit)) => Ok(HistoryQuery(from, to, limit, q.deviceId))
    case (Err(_), _, _) => Err("from")
    case (_, Err(_), _) => Err("to")
    case (_, _, Err(_)) => Err("limit")
  }

  /** A query with only a device id (of any length, even past 64 characters) parses with the default limit. */
  lemma DeviceOnlyQuery(deviceId: string)
    ensures ParseHistoryQuery(HistoryParams(None, None, None, Some(deviceId))) == Ok(HistoryQuery(None, None, DefaultHistoryLimit, Some(deviceId)))
  {
  }

  /** from may exceed to: both are accepted as given. */
  lemma InvertedRangeAccepted(from: nat, to: nat)
    requires 0 < to < from
    ensures ParseHistoryQuery(HistoryParams(Some(NatToString(from)), Some(NatToString(to)), None, None))
         == Ok(HistoryQuery(Some(from), Some(to), DefaultHistoryLimit, None))
  {
    NatToStringRoundTrip(from);
    NatToStringRoundTrip(to);
  }

  /** A limit of 0 and one of 1001 are rejected; 1 and 1000 are both accepted. */
  lemma LimitBounds()
    ensures ParseLimit(Some("0")).Err? && ParseLimit(Some("1001")).Err?
    ensures ParseLimit(Some("1")) == Ok(1) && ParseLimit(Some("1000")) == Ok(1000)
  {
    assert DigitsValue("0") == 0;
    assert DigitsValue("1") == 1;
    assert "100"[..2] == "10" && "1000"[..3] == "100" && "1001"[..3] == "100";
    assert DigitsValue("10") == 10;
    assert DigitsValue("100") == 100;
    assert DigitsValue("1000") == 1000 && DigitsValue("1001") == 1001;
  }
}
