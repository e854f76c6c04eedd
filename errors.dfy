/**
 * The API error classes (apps/backend/src/types/errors.ts): every subclass is an ApiError with
 * a fixed HTTP status and error code, a message (some with a default) and optional details.
 */
module Errors {
  import opened Wrappers
  import opened Json

  /** Which class an error was constructed with; Base is a direct `new ApiError(...)`. */
  datatype ErrorKind =
    | Validation | Authentication | Authorization | NotFound | Conflict | Internal | ServiceUnavailable
    | Base(baseStatus: int, baseCode: string)

  datatype ApiError = ApiError(kind: ErrorKind, message: string, statusCode: int, code: string, details: Option<map<string, Json>>)

  /** The status each class is constructed with. */
  function StatusOf(kind: ErrorKind): int {
    match kind
    case Validation => 400
    case Authentication => 401
    case Authorization => 403
    case NotFound => 404
    case Conflict => 409
    case Internal => 500
    case ServiceUnavailable => 503
    case Base(status, _) => status
  }

  /** The code each class is constructed with. */
  function CodeOf(kind: ErrorKind): string {
    match kind
    case Validation => "VALIDATION_ERROR"
    case Authentication => "AUTHENTICATION_ERROR"
    case Authorization => "AUTHORIZATION_ERROR"
    case NotFound => "NOT_FOUND"
    case Conflict => "CONFLICT"
    case Internal => "INTERNAL_ERROR"
    case ServiceUnavailable => "SERVICE_UNAVAILABLE"
    case Base(_, code) => code
  }

  /** An error as its class's constructor builds it: the class's status and code, the message and details as given. */
  predicate WellFormed(e: ApiError) {
    e.statusCode == StatusOf(e.kind) && e.code == CodeOf(e.kind)
  }

  function NewApiError(message: string, statusCode: int, code: string, details: Option<map<string, Json>>): (e: ApiError)
    ensures WellFormed(e) && e.message == message && e.statusCode == statusCode && e.code == code && e.details == details
  {
    ApiError(Base(statusCode, code), message, statusCode, code, details)
  }

  function NewValidationError(message: string, details: Option<map<string, Json>>): (e: ApiError)
    ensures WellFormed(e) && e.kind == Validation && e.message == message && e.details == details
  {
    ApiError(Validation, message, 400, "VALIDATION_ERROR", details)
  }

  /** The argument of a constructor with a default: None stands for undefined. */
  function ArgOr(arg: Option<string>, default: string): string {
    if arg.Some? then arg.value else default
  }

  function NewAuthenticationError(message: Option<string>): (e: ApiError)
    ensures WellFormed(e) && e.kind == Authentication && e.details.None?
    ensures e.message == ArgOr(message, "Authentication required")
  {
    ApiError(Authentication, ArgOr(message, "Authentication required"), 401, "AUTHENTICATION_ERROR", None)
  }

  function NewAuthorizationError(message: Option<string>): (e: ApiError)
    ensures WellFormed(e) && e.kind == Authorization && e.details.None?
    ensures e.message == ArgOr(message, "Access denied")
  {
    ApiError(Authorization, ArgOr(message, "Access denied"), 403, "AUTHORIZATION_ERROR", None)
  }

  function NewNotFoundError(resource: Option<string>): (e: ApiError)
    ensures WellFormed(e) && e.kind == NotFound && e.details.None?
    ensures e.message == ArgOr(resource, "Resource") + " not found"
  {
    ApiError(NotFound, ArgOr(resource, "Resource") + " not found", 404, "NOT_FOUND", None)
  }

  function NewConflictError(message: string): (e: ApiError)
    ensures WellFormed(e) && e.kind == Conflict && e.message == message && e.details.None?
  {
    ApiError(Conflict, message, 409, "CONFLICT", None)
  }

  function NewInternalError(message: Option<string>): (e: ApiError)
    ensures WellFormed(e) && e.kind == Internal && e.details.None?
    ensures e.message == ArgOr(message, "Internal server error")
  {
    ApiError(Internal, ArgOr(message, "Internal server error"), 500, "INTERNAL_ERROR", None)
  }

  function NewServiceUnavailableError(service: Option<string>): (e: ApiError)
    ensures WellFormed(e) && e.kind == ServiceUnavailable && e.details.None?
    ensures e.message == ArgOr(service, "Service") + " is temporarily unavailable"
  {
    ApiError(ServiceUnavailable, ArgOr(service, "Service") + " is temporarily unavailable", 503, "SERVICE_UNAVAILABLE", None)
  }

  /** The subclasses: client errors are 4xx, server errors 5xx, and no two share a status or a code. */
  lemma SubclassTable(a: ErrorKind, b: ErrorKind)
    requires !a.Base? && !b.Base?
    ensures a in {Validation, Authentication, Authorization, NotFound, Conflict} <==> 400 <= StatusOf(a) < 500
    ensures a in {Internal, ServiceUnavailable} <==> 500 <= StatusOf(a) < 600
    ensures StatusOf(a) == StatusOf(b) <==> a == b
    ensures CodeOf(a) == CodeOf(b) <==> a == b
  {
  }
}
