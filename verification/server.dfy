/**
 * The server's own decisions: the CORS origin check, the database test
 * endpoint, and the catch-all 404 handler.
 */
module Server {
  import opened Wrappers
  import opened JsText
  import ErrorHandler

  /** The fixed development origins. */
  const LocalOrigins: seq<string> := [
    "http://localhost:3000",
    "http://localhost:5173",
    "http://localhost:5174",
    "http://127.0.0.1:3000",
    "http://127.0.0.1:5173",
    "http://127.0.0.1:5174"
  ]

  /** The list after `.filter(Boolean)`: `FRONTEND_URL` joins it only when it
      is set and not empty. */
  function AllowedOrigins(frontendUrl: Option<string>): (r: seq<string>)
    ensures |r| == 6 || |r| == 7
    ensures r[..6] == LocalOrigins
    ensures |r| == 7 <==> frontendUrl.Some? && frontendUrl.value != ""
    ensures |r| == 7 ==> r[6] == frontendUrl.value
  {
    LocalOrigins + (if frontendUrl.Some? && frontendUrl.value != "" then [frontendUrl.value] else [])
  }

  /** What the origin callback passes on: allow, or an error for `next`. */
  datatype CorsVerdict = Allow | Reject(error: ErrorHandler.Err)

  /** `new Error('Not allowed by CORS')`: a plain error, not an `AppError`. */
  const CorsError := ErrorHandler.Err("Not allowed by CORS", None, None, None, None, None, "Error")

  /** `corsOptions.origin`; a missing or empty `Origin` header is falsy. */
  function CheckOrigin(origin: Option<string>, frontendUrl: Option<string>): (r: CorsVerdict)
    ensures r.Reject? ==> r.error == CorsError
  {
    if origin.None? || origin.value == "" then Allow
    else if origin.value in AllowedOrigins(frontendUrl) then Allow
    else Reject(CorsError)
  }

  /** An origin is allowed exactly when it is absent, or equals one of the six
      local origins, or equals a non-empty `FRONTEND_URL`; there is no prefix,
      case or trailing-slash tolerance. */
  lemma CheckOriginIff(origin: string, frontendUrl: Option<string>)
    requires origin != ""
    ensures CheckOrigin(Some(origin), frontendUrl) == Allow <==>
      origin in LocalOrigins || (frontendUrl.Some? && frontendUrl.value != "" && origin == frontendUrl.value)
  {
    var a := AllowedOrigins(frontendUrl);
    if frontendUrl.Some? && frontendUrl.value != "" {
      assert a == LocalOrigins + [frontendUrl.value];
    } else {
      assert a == LocalOrigins;
    }
  }

  /** Requests without an `Origin` are always let through. */
  lemma NoOriginIsAllowed(frontendUrl: Option<string>)
    ensures CheckOrigin(None, frontendUrl) == Allow
    ensures CheckOrigin(Some(""), frontendUrl) == Allow
  {
  }

  /** A trailing slash is a different origin. */
  lemma TrailingSlashRejected()
    ensures CheckOrigin(Some("http://localhost:3000/"), None) == Reject(CorsError)
  {
    var o := "http://localhost:3000/";
    forall k | 0 <= k < |LocalOrigins|
      ensures LocalOrigins[k] != o
    {
      assert |LocalOrigins[k]| != |o|;
    }
  }

  /** A rejected origin reaches the global error handler as a plain error:
      in production it is a 500 "Something went wrong!", in development a 500
      carrying the CORS message. */
  lemma CorsRejectionRendering(nodeEnv: Option<string>)
    ensures nodeEnv != Some("development") ==>
      ErrorHandler.GlobalErrorHandler(CorsError, nodeEnv) ==
        ErrorHandler.Rendered(500, "error", "Something went wrong!", false)
    ensures ErrorHandler.GlobalErrorHandler(CorsError, Some("development")) ==
      ErrorHandler.Rendered(500, "error", "Not allowed by CORS", true)
  {
  }

  /** The JSON body of `/api/db-test`. */
  datatype DbTestResponse = DbTestResponse(httpStatus: int, success: bool, message: string, error: Option<string>)

  /** `test` is what `testConnection` resolved to, or the message of the
      error it rejected with. */
  function DbTest(test: Result<bool, string>): (r: DbTestResponse)
    ensures test.Success? ==> r.httpStatus == 200 && r.success == test.value && r.error.None?
    ensures test.Failure? ==> r == DbTestResponse(500, false, "Database connection error", Some(test.error))
  {
    match test
    case Success(ok) =>
      DbTestResponse(200, ok, if ok then "Database connection successful" else "Database connection failed", None)
    case Failure(m) => DbTestResponse(500, false, "Database connection error", Some(m))
  }

  /** `success` and the "successful" message go together. */
  lemma DbTestSuccessIff(test: Result<bool, string>)
    ensures DbTest(test).success <==> DbTest(test).message == "Database connection successful"
    ensures DbTest(test).success <==> test == Success(true)
  {
  }

  /** The JSON body of the catch-all route. */
  datatype NotFoundResponse = NotFoundResponse(httpStatus: int, success: bool, message: string)

  /** The inline handler after the routes; the library `notFoundHandler` is
      imported but never mounted. */
  function NotFoundRoute(originalUrl: string): (r: NotFoundResponse)
    ensures r.httpStatus == 404 && !r.success
  {
    NotFoundResponse(404, false, "Can't find " + originalUrl + " on this server!")
  }

  /** The 404 message names the requested URL, and is the same text the
      library's 404 error carries. */
  lemma NotFoundRouteMessage(originalUrl: string)
    ensures Contains(NotFoundRoute(originalUrl).message, originalUrl)
    ensures NotFoundRoute(originalUrl).message == ErrorHandler.NotFound(originalUrl).message
  {
    ContainsInfix("Can't find ", originalUrl, " on this server!");
  }

  /** Different URLs give different messages. */
  lemma NotFoundRouteInjective(a: string, b: string)
    requires NotFoundRoute(a).message == NotFoundRoute(b).message
    ensures a == b
  {
    var p := "Can't find ";
    var ma := NotFoundRoute(a).message;
    assert |a| == |b|;
    assert a == ma[|p|..|p| + |a|];
    assert b == NotFoundRoute(b).message[|p|..|p| + |b|];
  }
}
