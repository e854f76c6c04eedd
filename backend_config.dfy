/** The backend's processing settings at their defaults (apps/backend/src/config/index.ts). */
module BackendConfig {
  const ApneaThresholdMs: int := 5000
  const MinSignalQuality: real := 0.3
  const SampleBufferSize: nat := 30
  const PeakProminence: real := 50.0
  const MinPeakDistanceMs: int := 1000
  const MaxBreathingRate: real := 60.0
  const MinBreathingRate: real := 4.0
  const DeviceApiKey: string := "dev-api-key-change-in-production"
}
