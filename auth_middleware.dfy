/**
 * Device authentication (apps/backend/src/middleware/auth.middleware.ts) against the configured
 * key. A header value is None when the X-Device-Key header is absent.
 */
module AuthMiddleware {
  import opened Wrappers
  import BackendConfig
  import opened Errors

  /** What deviceAuth does: call next, or throw. */
  datatype AuthDecision = Next | Reject(error: ApiError)

  /** JavaScript truthiness of the header value: absent and "" are false. */
  predicate HeaderPresent(header: Option<string>) {
    header.Some? && header.value != ""
  }

  /** deviceAuth: reject a missing or empty key, reject a wrong one, otherwise call next. */
  function DeviceAuth(header: Option<string>): (d: AuthDecision)
    ensures !HeaderPresent(header) ==> d == Reject(NewAuthenticationError(Some("Missing X-Device-Key header")))
    ensures HeaderPresent(header) && header.value != BackendConfig.DeviceApiKey ==> d == Reject(NewAuthenticationError(Some("Invalid API key")))
    ensures d.Next? <==> header == Some(BackendConfig.DeviceApiKey)
    ensures d.Reject? ==> d.error.statusCode == 401 && d.error.code == "AUTHENTICATION_ERROR"
  {
    if !HeaderPresent(header) then Reject(NewAuthenticationError(Some("Missing X-Device-Key header")))
    else if header.value != BackendConfig.DeviceApiKey then Reject(NewAuthenticationError(Some("Invalid API key")))
    else Next
  }

  /** What optionalDeviceAuth does: set isAuthenticated on the request and always call next. */
  datatype Marked = Marked(isAuthenticated: bool, callsNext: bool)

  function OptionalDeviceAuth(header: Option<string>): (m: Marked)
    ensures m.callsNext
    ensures m.isAuthenticated <==> header == Some(BackendConfig.DeviceApiKey)
  {
    Marked(header == Some(BackendConfig.DeviceApiKey), true)
  }

  /** deviceAuth lets through exactly the requests optionalDeviceAuth marks authenticated. */
  lemma StrictAgreesWithOptional(header: Option<string>)
    ensures DeviceAuth(header).Next? <==> OptionalDeviceAuth(header).isAuthenticated
  {
  }
}
