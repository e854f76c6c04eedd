/**
 * The error and 404 handlers (apps/backend/src/middleware/error.middleware.ts). Each call writes
 * exactly one response, here its return value; `Date.now()` is the `now` parameter.
 */
module ErrorMiddleware {
  import opened Wrappers
  import opened Json
  import opened Errors

  /** What reached the handler: one of the API errors, or any other Error. */
  datatype Thrown = Api(error: ApiError) | OtherError(name: string, message: string)

  datatype ErrorBody = ErrorBody(code: string, message: string, details: Option<map<string, Json>>)

  /** ApiResponse<null> */
  datatype ApiResponse = ApiResponse(success: bool, error: Option<ErrorBody>, timestamp: int)

  datatype HttpResponse = HttpResponse(status: int, body: ApiResponse)

  const UnexpectedErrorMessage: string := "An unexpected error occurred"

  /** errorHandler: an ApiError answers with its own status, code, message and details; anything else is a 500 that hides its message. */
  function ErrorHandler(thrown: Thrown, now: int): (r: HttpResponse)
    ensures !r.body.success && r.body.error.Some? && r.body.timestamp == now
    ensures thrown.Api? ==>
      r.status == thrown.error.statusCode && r.body.error.value == ErrorBody(thrown.error.code, thrown.error.message, thrown.error.details)
    ensures thrown.OtherError? ==>
      r.status == 500 && r.body.error.value == ErrorBody("INTERNAL_ERROR", UnexpectedErrorMessage, None)
  {
    match thrown
    case Api(e) => HttpResponse(e.statusCode, ApiResponse(false, Some(ErrorBody(e.code, e.message, e.details)), now))
    case OtherError(_, _) => HttpResponse(500, ApiResponse(false, Some(ErrorBody("INTERNAL_ERROR", UnexpectedErrorMessage, None)), now))
  }

  /** notFoundHandler: 404 NOT_FOUND naming the method and path. */
  function NotFoundHandler(httpMethod: string, path: string, now: int): (r: HttpResponse)
    ensures r.status == 404 && !r.body.success && r.body.timestamp == now
    ensures r.body.error == Some(ErrorBody("NOT_FOUND", "Route " + httpMethod + " " + path + " not found", None))
  {
    HttpResponse(404, ApiResponse(false, Some(ErrorBody("NOT_FOUND", "Route " + httpMethod + " " + path + " not found", None)), now))
  }

  /** The original message of a non-API error never reaches the client: two such errors get identical responses. */
  lemma OtherErrorsIndistinguishable(n1: string, m1: string, n2: string, m2: string, now: int)
    ensures ErrorHandler(OtherError(n1, m1), now) == ErrorHandler(OtherError(n2, m2), now)
  {
  }

  /** An unexpected error answers like an InternalError except for its fixed message. */
  lemma OtherErrorLikeInternal(name: string, message: string, now: int)
    ensures var r := ErrorHandler(OtherError(name, message), now);
      var i := ErrorHandler(Api(NewInternalError(Some(UnexpectedErrorMessage))), now);
      r == i
  {
  }

  /** The 404 route handler answers exactly as the error handler does for a NotFoundError on resource "Route METHOD path". */
  lemma NotFoundAgreesWithNotFoundError(httpMethod: string, path: string, now: int)
    ensures NotFoundHandler(httpMethod, path, now) == ErrorHandler(Api(NewNotFoundError(Some("Route " + httpMethod + " " + path))), now)
  {
    assert "Route " + httpMethod + " " + path + " not found" == ("Route " + httpMethod + " " + path) + " not found";
  }

  /** A well-formed API error is answered with its class's status. */
  lemma StatusFollowsClass(e: ApiError, now: int)
    requires WellFormed(e)
    ensures ErrorHandler(Api(e), now).status == StatusOf(e.kind)
  {
  }
}
