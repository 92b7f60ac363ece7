/** The application error type of `src/errors/app_error.rs` and its
    conversion into an HTTP response (status code and JSON body). */
module AppErrors {
  import opened Wrappers

  /** Every error kind the services return.  `Forbidden` carries a
      machine-readable code, as every call site in the services passes one. */
  datatype AppError =
    | Database(detail: string)
    | Serialization(detail: string)
    | BadRequest(message: string)
    | Conflict(message: string, code: string)
    | NotFound(message: string, code: string)
    | Forbidden(message: string, code: string)
    | Validation(message: string)
    | InsufficientPermissions(required: seq<int>)
    | Internal(message: string)

  datatype Result<+T> = Ok(value: T) | Err(error: AppError)

  /** The JSON body of an error response.  `errorCode` and
      `requiredPermissions` are the optional members of the object. */
  datatype ErrorBody = ErrorBody(
    error: string,
    errorCode: Option<string>,
    status: nat,
    requiredPermissions: Option<seq<int>>)

  datatype Response = Response(status: nat, body: ErrorBody)

  const DATABASE_ERROR_MESSAGE := "Database error"
  const DATA_FORMAT_ERROR_MESSAGE := "Data format error"
  const INSUFFICIENT_PERMISSIONS_MESSAGE := "Insufficient permissions"
  const INSUFFICIENT_PERMISSIONS_CODE := "INSUFFICIENT_PERMISSIONS"

  /** The status code and message of the first `match` of `into_response`. */
  function StatusAndMessage(e: AppError): (r: (nat, string))
    ensures r.0 in {400, 403, 404, 409, 500}
    ensures e.Database? ==> r.1 == DATABASE_ERROR_MESSAGE
    ensures e.InsufficientPermissions? ==> r.1 == INSUFFICIENT_PERMISSIONS_MESSAGE
  {
    match e
    case Database(_) => (500, DATABASE_ERROR_MESSAGE)
    case Serialization(_) => (400, DATA_FORMAT_ERROR_MESSAGE)
    case BadRequest(m) => (400, m)
    case Conflict(m, _) => (409, m)
    case NotFound(m, _) => (404, m)
    case Forbidden(m, _) => (403, m)
    case Validation(m) => (400, m)
    case InsufficientPermissions(_) => (403, INSUFFICIENT_PERMISSIONS_MESSAGE)
    case Internal(m) => (500, m)
  }

  /** `IntoResponse::into_response`: the status of each kind, and a body
      that carries a code only for `Conflict`, `NotFound` and
      `InsufficientPermissions`. */
  function IntoResponse(e: AppError): (r: Response)
    ensures r.status == 409 <==> e.Conflict?
    ensures r.status == 404 <==> e.NotFound?
    ensures r.status == 403 <==> e.Forbidden? || e.InsufficientPermissions?
    ensures r.status == 400 <==> e.Validation? || e.BadRequest? || e.Serialization?
    ensures r.status == 500 <==> e.Database? || e.Internal?
    ensures r.body.status == r.status
    ensures r.body.errorCode.Some? <==> e.Conflict? || e.NotFound? || e.InsufficientPermissions?
    ensures (e.Conflict? || e.NotFound?) ==> r.body.error == e.message && r.body.errorCode == Some(e.code)
    ensures r.body.requiredPermissions.Some? <==> e.InsufficientPermissions?
    ensures e.InsufficientPermissions? ==>
      r.body.errorCode == Some(INSUFFICIENT_PERMISSIONS_CODE) && r.body.requiredPermissions == Some(e.required)
    ensures e.Database? ==> r.body.error == DATABASE_ERROR_MESSAGE
  {
    var (status, message) := StatusAndMessage(e);
    var body :=
      match e
      case Conflict(m, code) => ErrorBody(m, Some(code), status, None)
      case NotFound(m, code) => ErrorBody(m, Some(code), status, None)
      case InsufficientPermissions(required) =>
        ErrorBody(INSUFFICIENT_PERMISSIONS_MESSAGE, Some(INSUFFICIENT_PERMISSIONS_CODE), 403, Some(required))
      case _ => ErrorBody(message, None, status, None);
    Response(status, body)
  }

  /** A database error's response does not depend on the underlying
      driver error: nothing of it reaches the client. */
  lemma DatabaseDetailNotExposed(d1: string, d2: string)
    ensures IntoResponse(Database(d1)) == IntoResponse(Database(d2))
  {
  }

  /** `From<anyhow::Error>`: every foreign error becomes `Internal`; the
      foreign error itself is not a parameter, since it is discarded. */
  function FromAnyhow(): (e: AppError)
    ensures e.Internal? && IntoResponse(e).status == 500
  {
    Internal("Internal server error")
  }
}
