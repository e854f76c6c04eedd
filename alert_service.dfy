/**
 * The alert service (apps/backend/src/services/alert.service.ts): a priority chain of alert rules
 * over a processed sample, and a cooldown map keyed "deviceId:TYPE" holding the last issued alert.
 * `Date.now()` is the `now` parameter (milliseconds) and the uuid of a new alert the `id` parameter.
 */
module Alerts {
  import opened Wrappers
  import opened Domain

  /** Thirty seconds between two alerts of the same type for the same device. */
  const AlertCooldownMs: int := 30000

  /** The metadata object each rule attaches. */
  datatype AlertMetadata =
    | ApneaMetadata(breathingRate: real, breathDepth: real)
    | DepthMetadata(breathDepth: real)
    | VariabilityMetadata(variability: real, breathingRate: real)

  datatype Alert = Alert(
    id: string,
    deviceId: string,
    timestamp: int,     // Unix seconds
    alertType: AlertType,
    severity: AlertSeverity,
    message: string,
    metadata: AlertMetadata)

  datatype LastAlert = LastAlert(alertType: AlertType, timestamp: int)

  /** A rule that matched: what it would raise if not in cooldown. */
  datatype Rule = Rule(alertType: AlertType, severity: AlertSeverity, message: string, metadata: AlertMetadata)

  /** The outcome of evaluate: the alert or null, and the cooldown map afterwards. */
  datatype Evaluation = Evaluation(alert: Option<Alert>, lastAlerts: map<string, LastAlert>)

  function CooldownKey(deviceId: string, alertType: AlertType): string {
    deviceId + ":" + alertType.Name()
  }

  /** The first rule of the chain whose condition holds, if any. */
  function MatchedRule(sample: ProcessedBreathingSample): (r: Option<Rule>)
    ensures sample.apneaRisk == High ==> r.Some? && r.value.alertType == ApneaDetected && r.value.severity == Critical
    ensures sample.apneaRisk != High && 0.0 < sample.breathDepth < 50.0 ==>
      r.Some? && r.value.alertType == LowSignalQuality && r.value.severity == Warning
    ensures sample.apneaRisk != High && !(0.0 < sample.breathDepth < 50.0) && sample.variability > 0.5 && sample.breathDepth > 100.0 ==>
      r.Some? && r.value.alertType == IrregularBreathing && r.value.severity == Info
    ensures r.None? <==>
      sample.apneaRisk != High && !(0.0 < sample.breathDepth < 50.0) && !(sample.variability > 0.5 && sample.breathDepth > 100.0)
  {
    if sample.apneaRisk == High then
      Some(Rule(ApneaDetected, Critical, "Breathing has stopped - immediate attention required",
                ApneaMetadata(sample.breathingRate, sample.breathDepth)))
    else if sample.breathDepth < 50.0 && sample.breathDepth > 0.0 then
      Some(Rule(LowSignalQuality, Warning, "Very shallow breathing detected - check sensor placement",
                DepthMetadata(sample.breathDepth)))
    else if sample.variability > 0.5 && sample.breathDepth > 100.0 then
      Some(Rule(IrregularBreathing, Info, "Irregular breathing pattern detected",
                VariabilityMetadata(sample.variability, sample.breathingRate)))
    else None
  }

  /** True when an alert was issued under key less than the cooldown ago. */
  predicate InCooldown(lastAlerts: map<string, LastAlert>, key: string, now: int) {
    key in lastAlerts && now - lastAlerts[key].timestamp < AlertCooldownMs
  }

  /** createAlertIfNotCooldown as a function of the map before the call. */
  function AlertIfNotCooldown(lastAlerts: map<string, LastAlert>, deviceId: string, rule: Rule, now: int, id: string): (e: Evaluation)
    ensures e.alert.None? <==> InCooldown(lastAlerts, CooldownKey(deviceId, rule.alertType), now)
    ensures e.alert.None? ==> e.lastAlerts == lastAlerts
    ensures e.alert.Some? ==>
      && e.alert.value.deviceId == deviceId && e.alert.value.alertType == rule.alertType && e.alert.value.severity == rule.severity
      && e.alert.value.timestamp == now / 1000
      && e.lastAlerts.Keys == lastAlerts.Keys + {CooldownKey(deviceId, rule.alertType)}
      && e.lastAlerts[CooldownKey(deviceId, rule.alertType)] == LastAlert(rule.alertType, now)
  {
    var key := CooldownKey(deviceId, rule.alertType);
    if InCooldown(lastAlerts, key, now) then Evaluation(None, lastAlerts)
    else Evaluation(Some(Alert(id, deviceId, now / 1000, rule.alertType, rule.severity, rule.message, rule.metadata)),
                    lastAlerts[key := LastAlert(rule.alertType, now)])
  }

  /** evaluate as a function of the map before the call. */
  function EvaluateSample(lastAlerts: map<string, LastAlert>, sample: ProcessedBreathingSample, now: int, id: string): (e: Evaluation)
    ensures MatchedRule(sample).None? ==> e == Evaluation(None, lastAlerts)
    ensures e.alert.Some? ==> MatchedRule(sample).Some? && e.alert.value.alertType == MatchedRule(sample).value.alertType
    ensures e.alert.Some? ==> e.alert.value.deviceId == sample.deviceId
    ensures e.alert.None? ==> e.lastAlerts == lastAlerts
  {
    match MatchedRule(sample)
    case None => Evaluation(None, lastAlerts)
    case Some(rule) => AlertIfNotCooldown(lastAlerts, sample.deviceId, rule, now, id)
  }

  /** A null result leaves the cooldown map exactly as it was. */
  lemma NoAlertKeepsCooldowns(lastAlerts: map<string, LastAlert>, sample: ProcessedBreathingSample, now: int, id: string)
    ensures EvaluateSample(lastAlerts, sample, now, id).alert.None? ==> EvaluateSample(lastAlerts, sample, now, id).lastAlerts == lastAlerts
  {
  }

  /**
   * An alert is issued iff some rule matches and the first matching rule's key is out of cooldown;
   * it is that rule's alert, stamped floor(now / 1000), and only its key moves to now.
   */
  lemma IssuedAlert(lastAlerts: map<string, LastAlert>, sample: ProcessedBreathingSample, now: int, id: string)
    ensures var e := EvaluateSample(lastAlerts, sample, now, id);
      e.alert.Some? <==>
        MatchedRule(sample).Some? && !InCooldown(lastAlerts, CooldownKey(sample.deviceId, MatchedRule(sample).value.alertType), now)
    ensures var e := EvaluateSample(lastAlerts, sample, now, id);
      e.alert.Some? ==>
        var rule := MatchedRule(sample).value;
        && e.alert.value == Alert(id, sample.deviceId, now / 1000, rule.alertType, rule.severity, rule.message, rule.metadata)
        && e.alert.value.timestamp * 1000 <= now < e.alert.value.timestamp * 1000 + 1000
        && e.lastAlerts == lastAlerts[CooldownKey(sample.deviceId, rule.alertType) := LastAlert(rule.alertType, now)]
  {
  }

  /** A matching rule in cooldown gives null; the lower rules are not tried even if they would match. */
  lemma CooldownDoesNotFallThrough(lastAlerts: map<string, LastAlert>, sample: ProcessedBreathingSample, now: int, id: string)
    requires sample.apneaRisk == High
    requires InCooldown(lastAlerts, CooldownKey(sample.deviceId, ApneaDetected), now)
    ensures EvaluateSample(lastAlerts, sample, now, id) == Evaluation(None, lastAlerts)
  {
  }

  /**
   * The cooldown runs from the last ISSUED alert: an alert at t0 and a suppressed repeat at t1
   * leave the key at t0, so a repeat at t2 >= t0 + 30000 is issued however close it is to t1.
   */
  lemma CooldownFromLastIssued(lastAlerts: map<string, LastAlert>, sample: ProcessedBreathingSample,
                               t0: int, t1: int, t2: int, id0: string, id1: string, id2: string)
    requires MatchedRule(sample).Some?
    requires !InCooldown(lastAlerts, CooldownKey(sample.deviceId, MatchedRule(sample).value.alertType), t0)
    requires t0 <= t1 < t0 + AlertCooldownMs <= t2
    ensures var e0 := EvaluateSample(lastAlerts, sample, t0, id0);
      var e1 := EvaluateSample(e0.lastAlerts, sample, t1, id1);
      var e2 := EvaluateSample(e1.lastAlerts, sample, t2, id2);
      e0.alert.Some? && e1.alert.None? && e2.alert.Some?
  {
    var key := CooldownKey(sample.deviceId, MatchedRule(sample).value.alertType);
    var e0 := EvaluateSample(lastAlerts, sample, t0, id0);
    assert e0.lastAlerts[key].timestamp == t0;
    var e1 := EvaluateSample(e0.lastAlerts, sample, t1, id1);
    assert e1.lastAlerts == e0.lastAlerts;
  }

  /**
   * Cooldown keys of different devices or types are different, so they never block each other,
   * whatever characters the device ids hold (':' included): no type name contains ':', so the
   * ':' before the shorter of two names meets a character of the longer one.
   */
  lemma CooldownKeysDistinct(d1: string, t1: AlertType, d2: string, t2: AlertType)
    requires d1 != d2 || t1 != t2
    ensures CooldownKey(d1, t1) != CooldownKey(d2, t2)
  {
    var k1, k2 := CooldownKey(d1, t1), CooldownKey(d2, t2);
    var n1, n2 := t1.Name(), t2.Name();
    if |n1| < |n2| {
      assert k1[|k1| - |n1| - 1] == ':';
      assert k2[|k2| - |n1| - 1] == n2[|n2| - |n1| - 1] != ':';
    } else if |n2| < |n1| {
      assert k2[|k2| - |n2| - 1] == ':';
      assert k1[|k1| - |n2| - 1] == n1[|n1| - |n2| - 1] != ':';
    } else if |d1| == |d2| && d1 != d2 {
      var i :| 0 <= i < |d1| && d1[i] != d2[i];
      assert k1[i] == d1[i] && k2[i] == d2[i];
    }
  }

  /** The rank of a risk level, LOW lowest. */
  function RiskRank(risk: ApneaRiskLevel): nat {
    match risk
    case Low => 0
    case Medium => 1
    case High => 2
  }

  /** The rank of a severity, INFO lowest. */
  function SeverityRank(severity: AlertSeverity): nat {
    match severity
    case Info => 0
    case Warning => 1
    case Critical => 2
  }

  /** getSeverityForRisk: HIGH to CRITICAL, MEDIUM to WARNING, LOW to INFO. */
  function SeverityForRisk(risk: ApneaRiskLevel): (severity: AlertSeverity)
    ensures SeverityRank(severity) == RiskRank(risk)
  {
    match risk
    case High => Critical
    case Medium => Warning
    case Low => Info
  }

  /** The mapping is one-to-one and keeps the order of the levels. */
  lemma SeverityForRiskOrdered(a: ApneaRiskLevel, b: ApneaRiskLevel)
    ensures RiskRank(a) <= RiskRank(b) <==> SeverityRank(SeverityForRisk(a)) <= SeverityRank(SeverityForRisk(b))
    ensures SeverityForRisk(a) == SeverityForRisk(b) ==> a == b
  {
  }

  class AlertService {
    var lastAlertByDevice: map<string, LastAlert>

    constructor ()
      ensures lastAlertByDevice == map[]
    {
      lastAlertByDevice := map[];
    }

    /** createAlertIfNotCooldown: null inside the cooldown, else issue the alert and record now under its key. */
    method CreateAlertIfNotCooldown(deviceId: string, rule: Rule, now: int, id: string) returns (alert: Option<Alert>)
      modifies this
      ensures Evaluation(alert, lastAlertByDevice) == AlertIfNotCooldown(old(lastAlertByDevice), deviceId, rule, now, id)
    {
      var key := CooldownKey(deviceId, rule.alertType);
      if key in lastAlertByDevice && now - lastAlertByDevice[key].timestamp < AlertCooldownMs {
        return None;
      }
      lastAlertByDevice := lastAlertByDevice[key := LastAlert(rule.alertType, now)];
      alert := Some(Alert(id, deviceId, now / 1000, rule.alertType, rule.severity, rule.message, rule.metadata));
    }

    /** evaluate: the first matching rule decides, through its cooldown. */
    method Evaluate(sample: ProcessedBreathingSample, now: int, id: string) returns (alert: Option<Alert>)
      modifies this
      ensures Evaluation(alert, lastAlertByDevice) == EvaluateSample(old(lastAlertByDevice), sample, now, id)
    {
      var rule := MatchedRule(sample);
      if rule.None? {
        return None;
      }
      alert := CreateAlertIfNotCooldown(sample.deviceId, rule.value, now, id);
    }

    /** clearCooldown: delete every key that starts with deviceId, a prefix match. */
    method ClearCooldown(deviceId: string)
      modifies this
      ensures lastAlertByDevice.Keys == set k | k in old(lastAlertByDevice) && !(deviceId <= k)
      ensures forall k :: k in lastAlertByDevice ==> lastAlertByDevice[k] == old(lastAlertByDevice)[k]
    {
      ghost var original := lastAlertByDevice;
      var keys := lastAlertByDevice.Keys;
      while keys != {}
        invariant keys <= original.Keys
        invariant lastAlertByDevice.Keys == set k | k in original && (k in keys || !(deviceId <= k))
        invariant forall k :: k in lastAlertByDevice ==> lastAlertByDevice[k] == original[k]
        decreases |keys|
      {
        var key :| key in keys;
        if deviceId <= key {
          lastAlertByDevice := lastAlertByDevice - {key};
        }
        keys := keys - {key};
      }
    }
  }

  /** The prefix match also clears a device whose id extends the given one. */
  lemma ClearCooldownPrefixCatchesLongerIds()
    ensures "dev-1" <= CooldownKey("dev-10", ApneaDetected)
  {
  }
}
