/**
 * The iOS breathing data model (apps/ios/BreathTracker/BreathTracker/Models/BreathingData.swift):
 * the tolerant decoder from a backend JSON sample, the depth categories and the stopped test.
 * UUID parsing and generation are the `parseUuid` and `freshId` parameters.
 */
module BreathingModel {
  import opened Wrappers
  import opened Json

  datatype BreathingData = BreathingData(
    id: string,
    timestamp: real,           // TimeInterval
    breathingRate: int,
    breathIntervalMs: int,
    apneaDetected: bool,
    breathDepth: int)

  datatype BreathDepthCategory = Shallow | Normal | Deep {
    function RawValue(): string {
      match this
      case Shallow => "Shallow"
      case Normal => "Normal"
      case Deep => "Deep"
    }

    function Rank(): nat {
      match this
      case Shallow => 0
      case Normal => 1
      case Deep => 2
    }
  }

  /** BreathDepthCategory.from(adcValue:) */
  function DepthCategory(adcValue: int): (c: BreathDepthCategory)
    ensures c == Shallow <==> adcValue < 150
    ensures c == Normal <==> 150 <= adcValue < 400
    ensures c == Deep <==> 400 <= adcValue
  {
    if adcValue < 150 then Shallow else if adcValue < 400 then Normal else Deep
  }

  /** A deeper reading never falls in a shallower category. */
  lemma DepthCategoryMonotone(a: int, b: int)
    requires a <= b
    ensures DepthCategory(a).Rank() <= DepthCategory(b).Rank()
  {
  }

  /** isBreathingStopped: an apnea flag, or a rate of zero. */
  predicate IsBreathingStopped(d: BreathingData)
    ensures d.apneaDetected ==> IsBreathingStopped(d)
    ensures d.breathingRate == 0 ==> IsBreathingStopped(d)
    ensures !d.apneaDetected && d.breathingRate != 0 ==> !IsBreathingStopped(d)
  {
    d.apneaDetected || d.breathingRate == 0
  }

  /** The memberwise init: every argument is stored as given. */
  function Make(id: string, timestamp: real, breathingRate: int, breathIntervalMs: int, apneaDetected: bool, breathDepth: int): (d: BreathingData)
    ensures d.id == id && d.timestamp == timestamp && d.breathingRate == breathingRate
    ensures d.breathIntervalMs == breathIntervalMs && d.apneaDetected == apneaDetected && d.breathDepth == breathDepth
  {
    BreathingData(id, timestamp, breathingRate, breathIntervalMs, apneaDetected, breathDepth)
  }

  /** The distinct ways decoding can fail. */
  datatype DecodeError = NotAnObject | MissingTimestamp | TimestampNotANumber

  /** Int(x) for a Double x: truncation toward zero. */
  function TruncateTowardZero(x: real): (i: int)
    ensures x >= 0.0 ==> i as real <= x < i as real + 1.0
    ensures x < 0.0 ==> i as real - 1.0 < x <= i as real
  {
    if x >= 0.0 then x.Floor else -((-x).Floor)
  }

  /** `try? decode(Int.self, ...)`: a JSON number with an integral value. */
  function DecodeInt(v: Option<Json>): (r: Option<int>)
    ensures r.Some? <==> v.Some? && v.value.JNumber? && IsInteger(v.value.n)
    ensures r.Some? ==> r.value as real == v.value.n
  {
    if v.Some? && v.value.JNumber? && IsInteger(v.value.n) then Some(v.value.n.Floor) else None
  }

  /** `try? decode(Double.self, ...)`: any JSON number. */
  function DecodeDouble(v: Option<Json>): (r: Option<real>)
    ensures r.Some? <==> v.Some? && v.value.JNumber?
  {
    if v.Some? && v.value.JNumber? then Some(v.value.n) else None
  }

  function DecodeString(v: Option<Json>): Option<string> {
    if v.Some? && v.value.JString? then Some(v.value.s) else None
  }

  function DecodeBool(v: Option<Json>): Option<bool> {
    if v.Some? && v.value.JBool? then Some(v.value.b) else None
  }

  /** The Int-then-Double fallback of breathingRate and breathDepth: an integer as-is, another number truncated, else 0. */
  function IntOrTruncated(v: Option<Json>): (i: int)
    ensures v.Some? && v.value.JNumber? ==> i == TruncateTowardZero(v.value.n)
    ensures !(v.Some? && v.value.JNumber?) ==> i == 0
  {
    if DecodeInt(v).Some? then DecodeInt(v).value
    else if DecodeDouble(v).Some? then TruncateTowardZero(DecodeDouble(v).value)
    else 0
  }

  /** breathLengthMs as an Int, else breathIntervalMs as an Int, else 0. */
  function IntervalMs(lengthMs: Option<Json>, intervalMs: Option<Json>): (i: int)
    ensures DecodeInt(lengthMs).Some? ==> i == DecodeInt(lengthMs).value
    ensures DecodeInt(lengthMs).None? && DecodeInt(intervalMs).Some? ==> i == DecodeInt(intervalMs).value
    ensures DecodeInt(lengthMs).None? && DecodeInt(intervalMs).None? ==> i == 0
  {
    if DecodeInt(lengthMs).Some? then DecodeInt(lengthMs).value
    else if DecodeInt(intervalMs).Some? then DecodeInt(intervalMs).value
    else 0
  }

  /** apneaRisk as a String decides ("HIGH" only), else apneaDetected as a Bool, else false. */
  function ApneaFlag(apneaRisk: Option<Json>, apneaDetected: Option<Json>): (b: bool)
    ensures DecodeString(apneaRisk).Some? ==> (b <==> DecodeString(apneaRisk).value == "HIGH")
    ensures DecodeString(apneaRisk).None? && DecodeBool(apneaDetected).Some? ==> b == DecodeBool(apneaDetected).value
    ensures DecodeString(apneaRisk).None? && DecodeBool(apneaDetected).None? ==> !b
  {
    if DecodeString(apneaRisk).Some? then DecodeString(apneaRisk).value == "HIGH"
    else if DecodeBool(apneaDetected).Some? then DecodeBool(apneaDetected).value
    else false
  }

  function Field(fields: map<string, Json>, key: string): Option<Json> {
    if key in fields then Some(fields[key]) else None
  }

  /** init(from:): only the timestamp is required; every other field has a fallback. */
  function Decode(json: Json, parseUuid: string -> Option<string>, freshId: string): (r: Result<BreathingData, DecodeError>)
    ensures r.Ok? <==> json.JObject? && "timestamp" in json.fields && json.fields["timestamp"].JNumber?
    ensures r.Ok? ==>
      var f := json.fields;
      && r.value.timestamp == f["timestamp"].n
      && r.value.breathingRate == IntOrTruncated(Field(f, "breathingRate"))
      && r.value.breathIntervalMs == IntervalMs(Field(f, "breathLengthMs"), Field(f, "breathIntervalMs"))
      && r.value.apneaDetected == ApneaFlag(Field(f, "apneaRisk"), Field(f, "apneaDetected"))
      && r.value.breathDepth == IntOrTruncated(Field(f, "breathDepth"))
  {
    if !json.JObject? then Err(NotAnObject)
    else
      var f := json.fields;
      var idText := DecodeString(Field(f, "id"));
      var id := if idText.Some? && parseUuid(idText.value).Some? then parseUuid(idText.value).value else freshId;
      if "timestamp" !in f then Err(MissingTimestamp)
      else if !f["timestamp"].JNumber? then Err(TimestampNotANumber)
      else Ok(BreathingData(id, f["timestamp"].n,
                            IntOrTruncated(Field(f, "breathingRate")),
                            IntervalMs(Field(f, "breathLengthMs"), Field(f, "breathIntervalMs")),
                            ApneaFlag(Field(f, "apneaRisk"), Field(f, "apneaDetected")),
                            IntOrTruncated(Field(f, "breathDepth"))))
  }

  /** A processed sample as the backend serves it (only the keys the decoder reads). */
  function BackendSampleJson(id: string, timestamp: int, breathingRate: real, breathLengthMs: int, apneaRisk: string, breathDepth: real): Json {
    JObject(map["id" := JString(id), "timestamp" := JNumber(timestamp as real), "breathingRate" := JNumber(breathingRate),
                "breathLengthMs" := JNumber(breathLengthMs as real), "apneaRisk" := JString(apneaRisk), "breathDepth" := JNumber(breathDepth)])
  }

  /** A backend sample decodes with its id, its length as the interval, its rate and depth truncated, and apnea iff its risk is HIGH. */
  lemma DecodeBackendSample(id: string, timestamp: int, breathingRate: real, breathLengthMs: int, apneaRisk: string, breathDepth: real,
                            parseUuid: string -> Option<string>, freshId: string)
    requires parseUuid(id) == Some(id)
    ensures Decode(BackendSampleJson(id, timestamp, breathingRate, breathLengthMs, apneaRisk, breathDepth), parseUuid, freshId)
         == Ok(BreathingData(id, timestamp as real, TruncateTowardZero(breathingRate), breathLengthMs,
                             apneaRisk == "HIGH", TruncateTowardZero(breathDepth)))
  {
    assert IsInteger(breathLengthMs as real);
  }

  /** A decoded backend sample shows breathing as stopped iff its risk is HIGH or its rate is below one breath per minute in magnitude. */
  lemma StoppedBackendSample(id: string, timestamp: int, breathingRate: real, breathLengthMs: int, apneaRisk: string, breathDepth: real,
                             parseUuid: string -> Option<string>, freshId: string)
    requires parseUuid(id) == Some(id)
    ensures var r := Decode(BackendSampleJson(id, timestamp, breathingRate, breathLengthMs, apneaRisk, breathDepth), parseUuid, freshId);
      r.Ok? && (IsBreathingStopped(r.value) <==> apneaRisk == "HIGH" || -1.0 < breathingRate < 1.0)
  {
    DecodeBackendSample(id, timestamp, breathingRate, breathLengthMs, apneaRisk, breathDepth, parseUuid, freshId);
  }

  /** An apneaRisk string overrides an apneaDetected key even when that key says true. */
  lemma RiskStringOverridesFlag(risk: string)
    requires risk != "HIGH"
    ensures !ApneaFlag(Some(JString(risk)), Some(JBool(true)))
  {
  }

  /** The data the app itself produces, written with the mock keys, decodes back to itself. */
  function MockSampleJson(d: BreathingData): Json {
    JObject(map["id" := JString(d.id), "timestamp" := JNumber(d.timestamp), "breathingRate" := JNumber(d.breathingRate as real),
                "breathIntervalMs" := JNumber(d.breathIntervalMs as real), "apneaDetected" := JBool(d.apneaDetected),
                "breathDepth" := JNumber(d.breathDepth as real)])
  }

  lemma MockSampleRoundTrip(d: BreathingData, parseUuid: string -> Option<string>, freshId: string)
    requires parseUuid(d.id) == Some(d.id)
    ensures Decode(MockSampleJson(d), parseUuid, freshId) == Ok(d)
  {
    assert IsInteger(d.breathingRate as real) && IsInteger(d.breathIntervalMs as real) && IsInteger(d.breathDepth as real);
    assert IntOrTruncated(Some(JNumber(d.breathingRate as real))) == d.breathingRate;
    assert IntOrTruncated(Some(JNumber(d.breathDepth as real))) == d.breathDepth;
  }
}
