/** The backend's domain values (apps/backend/src/types/domain.types.ts). */
module Domain {
  /** A potentiometer reading as the device posts it; the timestamp is in Unix seconds. */
  datatype RawBreathSample = RawBreathSample(deviceId: string, timestamp: int, rawValue: int)

  datatype ApneaRiskLevel = Low | Medium | High {
    /** The wire spelling of the level. */
    function Name(): string {
      match this
      case Low => "LOW"
      case Medium => "MEDIUM"
      case High => "HIGH"
    }
  }

  /**
   * A processed sample as the alert service and the repository read it. Both read breathDepth
   * where the record type declares signalQuality, so the model carries breathDepth.
   */
  datatype ProcessedBreathingSample = ProcessedBreathingSample(
    id: string,
    deviceId: string,
    timestamp: int,
    breathingRate: real,
    breathLengthMs: int,
    variability: real,
    breathDepth: real,
    apneaRisk: ApneaRiskLevel)

  datatype AlertType = ApneaDetected | LowSignalQuality | IrregularBreathing {
    /** The wire spelling of the type. */
    function Name(): string {
      match this
      case ApneaDetected => "APNEA_DETECTED"
      case LowSignalQuality => "LOW_SIGNAL_QUALITY"
      case IrregularBreathing => "IRREGULAR_BREATHING"
    }
  }

  datatype AlertSeverity = Info | Warning | Critical

  function SampleTime(s: RawBreathSample): int { s.timestamp }
}
