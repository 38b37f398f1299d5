/**
 * The global exception handler of the HTTP pipeline
 * (Middleware/ExceptionHandlingMiddleware.cs): exception type to status code,
 * status code to title, and the RFC 7807 problem-details response.
 */
module ExceptionHandling {
  import opened Clr

  const BadRequest: int := 400
  const Unauthorized: int := 401
  const Forbidden: int := 403
  const NotFound: int := 404
  const InternalServerError: int := 500

  const ProblemContentType: string := "application/problem+json"
  const GenericDetail: string := "An error occurred processing your request."
  const FallbackTitle: string := "An error occurred"

  /** The switch over the exception's type, first matching arm wins. */
  function StatusFor(e: Exception): (code: int)
    ensures IsA(e, "ArgumentNullException") || IsA(e, "ArgumentException") ==> code == BadRequest
    ensures IsA(e, "InvalidOperationException") && !IsA(e, "UnauthorizedAccessException") ==>
              code == BadRequest
    ensures code == Unauthorized <==>
              && IsA(e, "UnauthorizedAccessException")
              && !IsA(e, "ArgumentNullException") && !IsA(e, "ArgumentException")
    ensures code == InternalServerError <==>
              !IsA(e, "ArgumentNullException") && !IsA(e, "ArgumentException")
              && !IsA(e, "UnauthorizedAccessException") && !IsA(e, "InvalidOperationException")
    ensures code in {BadRequest, Unauthorized, InternalServerError}
  {
    if IsA(e, "ArgumentNullException") then BadRequest
    else if IsA(e, "ArgumentException") then BadRequest
    else if IsA(e, "UnauthorizedAccessException") then Unauthorized
    else if IsA(e, "InvalidOperationException") then BadRequest
    else InternalServerError
  }

  /** `GetTitle`: the reason phrase of the five codes it knows, a generic title otherwise. */
  function GetTitle(code: int): (title: string)
    ensures code == BadRequest ==> title == "Bad Request"
    ensures code == Unauthorized ==> title == "Unauthorized"
    ensures code == InternalServerError ==> title == "Internal Server Error"
    ensures title == FallbackTitle <==> code !in {BadRequest, Unauthorized, Forbidden, NotFound, InternalServerError}
  {
    if code == BadRequest then "Bad Request"
    else if code == Unauthorized then "Unauthorized"
    else if code == Forbidden then "Forbidden"
    else if code == NotFound then "Not Found"
    else if code == InternalServerError then "Internal Server Error"
    else FallbackTitle
  }

  datatype ProblemDetails = ProblemDetails(
    status: int,
    title: string,
    detail: string,
    instance: string,
    extensions: map<string, string>)

  /** The ProblemDetails that `HandleExceptionAsync` builds. */
  function ProblemFor(e: Exception, isDevelopment: bool, path: string, traceId: string): (p: ProblemDetails)
    ensures p.status == StatusFor(e) && p.title == GetTitle(p.status)
    // only 400, 401 and 500 are produced, so the generic title never shows
    ensures p.title != FallbackTitle
    ensures p.detail == if isDevelopment then e.message else GenericDetail
    ensures p.instance == path
    ensures "traceId" in p.extensions <==> isDevelopment
    ensures "exception" in p.extensions <==> isDevelopment
    ensures isDevelopment ==> p.extensions == map["traceId" := traceId, "exception" := e.typeName]
    ensures !isDevelopment ==> p.extensions == map[]
  {
    var code := StatusFor(e);
    ProblemDetails(
      code,
      GetTitle(code),
      if isDevelopment then e.message else GenericDetail,
      path,
      if isDevelopment then map["traceId" := traceId, "exception" := e.typeName] else map[])
  }

  /** The parts of the HTTP response the handler writes. */
  class HttpResponse {
    var contentType: string
    var statusCode: int
    var body: seq<ProblemDetails>

    constructor ()
      ensures contentType == "" && statusCode == 200 && body == []
    {
      contentType, statusCode, body := "", 200, [];
    }

    /** `HandleExceptionAsync`: set the content type and status, then write the problem. */
    method HandleException(e: Exception, isDevelopment: bool, path: string, traceId: string)
      modifies this
      ensures contentType == ProblemContentType
      ensures body == old(body) + [ProblemFor(e, isDevelopment, path, traceId)]
      ensures statusCode == ProblemFor(e, isDevelopment, path, traceId).status
    {
      var problem := ProblemFor(e, isDevelopment, path, traceId);
      contentType := ProblemContentType;
      statusCode := StatusFor(e);
      body := body + [problem];
    }
  }
}
