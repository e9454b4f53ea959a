/** How the service turns an exception escaping a controller into a response: its own exceptions
    carry their message and a status by kind, anything else is a 500 with a fixed message. The
    response body is the JSON object `{ Message = message }`, modelled by its message. */
module ExceptionFilter {
  /** The exception kinds the filter tells apart: the service's own, by subclass (`Service` is the
      base class itself or a subclass the filter does not name, such as the missing app setting),
      and any other exception. */
  datatype ExceptionKind = Validation | PageNotFound | PermissionsDenied | Service | Other

  datatype Exception = Exception(kind: ExceptionKind, message: string)

  const BadRequest: int := 400
  const Forbidden: int := 403
  const NotFound: int := 404
  const InternalServerError: int := 500

  const UnexpectedMessage: string := "An unexpected error occured"

  datatype Response = Response(statusCode: int, message: string)

  predicate IsServiceException(e: Exception) {
    e.kind != Other
  }

  /** `OnException`: the status code set on the response and the message of the JSON result. */
  function OnException(e: Exception): (r: Response)
    ensures e.kind == Validation ==> r.statusCode == BadRequest
    ensures e.kind == PageNotFound ==> r.statusCode == NotFound
    ensures e.kind == PermissionsDenied ==> r.statusCode == Forbidden
    ensures e.kind == Service || e.kind == Other ==> r.statusCode == InternalServerError
    ensures IsServiceException(e) ==> r.message == e.message
    ensures !IsServiceException(e) ==> r.message == UnexpectedMessage
  {
    var code :=
      if !IsServiceException(e) then InternalServerError
      else if e.kind == Validation then BadRequest
      else if e.kind == PageNotFound then NotFound
      else if e.kind == PermissionsDenied then Forbidden
      else InternalServerError;
    Response(code, if IsServiceException(e) then e.message else UnexpectedMessage)
  }

  /** Every response is one of four statuses, and a client error (4xx) always passes the
      exception's own message through. */
  lemma StatusesAndMessages(e: Exception)
    ensures OnException(e).statusCode in {BadRequest, Forbidden, NotFound, InternalServerError}
    ensures OnException(e).statusCode < 500 ==> OnException(e).message == e.message && IsServiceException(e)
  {
  }

  /** The filter hides the message of exactly those exceptions that are not the service's own. */
  lemma MessageHiddenOnlyForForeign(e: Exception)
    requires e.message != UnexpectedMessage
    ensures OnException(e).message == e.message <==> IsServiceException(e)
    ensures OnException(e) == Response(InternalServerError, UnexpectedMessage) <==> !IsServiceException(e)
  {
  }
}
