/**
 * The error middleware: `AppError`, the database-error decision table, the
 * validation and cast handlers, the development and production renderings,
 * the global handler that chooses between them, and the 404 handler.
 */
module ErrorHandler {
  import opened Wrappers
  import opened JsText

  /** The properties of a thrown error that the middleware reads.  `None` is
      `undefined`; `name` lives on the prototype and is never copied by a spread. */
  datatype Err = Err(
    message: string,
    statusCode: Option<int>,
    status: Option<string>,
    isOperational: Option<bool>,
    code: Option<string>,
    number: Option<int>,
    name: string)

  /** `` `${statusCode}`.startsWith('4') ? 'fail' : 'error' ``. */
  function StatusFor(statusCode: int): string {
    if IntToDecimal(statusCode)[0] == '4' then "fail" else "error"
  }

  /** `new AppError(message, statusCode, isOperational = true)`. */
  function AppError(message: string, statusCode: int, isOperational: bool := true): (e: Err)
    ensures e.message == message && e.statusCode == Some(statusCode)
    ensures e.isOperational == Some(isOperational) && e.code.None? && e.number.None?
    ensures e.status == Some(StatusFor(statusCode))
  {
    Err(message, Some(statusCode), Some(StatusFor(statusCode)), Some(isOperational), None, None, "Error")
  }

  /** For a three-digit HTTP status the status text is "fail" exactly for the
      4xx codes, and every AppError is operational unless told otherwise. */
  lemma {:induction false} AppErrorStatus(message: string, statusCode: int)
    requires 100 <= statusCode <= 999
    ensures AppError(message, statusCode).status == Some("fail") <==> 400 <= statusCode < 500
    ensures AppError(message, statusCode).status == Some("error") <==> !(400 <= statusCode < 500)
    ensures AppError(message, statusCode).isOperational == Some(true)
  {
    NatToDecimalFirst(statusCode);
    LeadingOfThreeDigits(statusCode);
    assert DigitValue(DigitChar(statusCode / 100)) == statusCode / 100;
  }

  /** A negative status code prints with a leading minus, so its status is "error". */
  lemma NegativeStatusIsError(statusCode: int)
    requires statusCode < 0
    ensures StatusFor(statusCode) == "error"
  {
  }

  predicate NonEmpty(s: Option<string>) {
    s.Some? && s.value != ""
  }

  /** `handleDatabaseError`: the code checks in order, then the message checks,
      then the fallback. */
  function HandleDatabaseError(e: Err): (r: Err)
    ensures r.isOperational == Some(true)
  {
    if e.code == Some("EREQUEST") then AppError("Invalid database request", 400)
    else if e.code == Some("ELOGIN") then AppError("Database authentication failed", 500)
    else if e.code == Some("ETIMEOUT") then AppError("Database connection timeout", 503)
    else if e.code == Some("ECONNRESET") then AppError("Database connection was reset", 503)
    else if e.message != "" && Contains(e.message, "duplicate key") then AppError("Duplicate entry found", 409)
    else if e.message != "" && Contains(e.message, "foreign key") then AppError("Referenced record not found", 400)
    else AppError("Database operation failed", 500)
  }

  const KnownCodes: set<string> := {"EREQUEST", "ELOGIN", "ETIMEOUT", "ECONNRESET"}

  /** The decision table: the four codes win over any message, "duplicate key"
      wins over "foreign key", and everything else is a 500. */
  lemma DatabaseErrorTable(e: Err)
    ensures e.code == Some("EREQUEST") ==> HandleDatabaseError(e).statusCode == Some(400)
    ensures e.code == Some("ELOGIN") ==> HandleDatabaseError(e).statusCode == Some(500)
    ensures e.code == Some("ETIMEOUT") ==> HandleDatabaseError(e).statusCode == Some(503)
    ensures e.code == Some("ECONNRESET") ==> HandleDatabaseError(e).statusCode == Some(503)
    ensures (e.code.None? || e.code.value !in KnownCodes) ==>
      HandleDatabaseError(e) ==
        if Contains(e.message, "duplicate key") then AppError("Duplicate entry found", 409)
        else if Contains(e.message, "foreign key") then AppError("Referenced record not found", 400)
        else AppError("Database operation failed", 500)
  {
  }

  /** The message never matters once one of the four codes is present. */
  lemma CodeBeatsMessage(e: Err, otherMessage: string)
    requires e.code.Some? && e.code.value in KnownCodes
    ensures HandleDatabaseError(e) == HandleDatabaseError(e.(message := otherMessage))
  {
  }

  /** `handleValidationError`: whatever the error said, an operational 400
      "fail" with a fixed message and nothing of the database error kept. */
  function HandleValidationError(e: Err): (r: Err)
    ensures r.message == "Invalid input data" && r.statusCode == Some(400)
    ensures r.status == Some("fail") && r.isOperational == Some(true)
    ensures r.code.None? && r.number.None?
  {
    AppErrorStatus("Invalid input data", 400);
    AppError("Invalid input data", 400)
  }

  /** `handleCastError`: the same, with its own fixed message. */
  function HandleCastError(e: Err): (r: Err)
    ensures r.message == "Invalid data format" && r.statusCode == Some(400)
    ensures r.status == Some("fail") && r.isOperational == Some(true)
    ensures r.code.None? && r.number.None?
  {
    AppErrorStatus("Invalid data format", 400);
    AppError("Invalid data format", 400)
  }

  /** The JSON error body: HTTP status, `status`, `message`, and whether the
      development extras (`error`, `stack`) are included.  The timestamp is left out. */
  datatype Rendered = Rendered(httpStatus: int, status: string, message: string, withDetails: bool)

  function SendErrorDev(e: Err): Rendered
    requires e.statusCode.Some? && e.status.Some?
  {
    Rendered(e.statusCode.value, e.status.value, e.message, true)
  }

  function SendErrorProd(e: Err): (r: Rendered)
    requires e.statusCode.Some? && e.status.Some?
    ensures !r.withDetails
    ensures e.isOperational == Some(true) ==> r == Rendered(e.statusCode.value, e.status.value, e.message, false)
    ensures e.isOperational != Some(true) ==> r == Rendered(500, "error", "Something went wrong!", false)
  {
    if e.isOperational == Some(true) then Rendered(e.statusCode.value, e.status.value, e.message, false)
    else Rendered(500, "error", "Something went wrong!", false)
  }

  /** `err.statusCode || 500` and `err.status || 'error'`. */
  function WithDefaults(e: Err): (r: Err)
    ensures r.statusCode.Some? && r.status.Some?
    ensures r.statusCode.value != 0 && r.status.value != ""
    ensures e.statusCode.Some? && e.statusCode.value != 0 ==> r.statusCode == e.statusCode
    ensures NonEmpty(e.status) ==> r.status == e.status
  {
    e.(statusCode := if e.statusCode.Some? && e.statusCode.value != 0 then e.statusCode else Some(500),
       status := if NonEmpty(e.status) then e.status else Some("error"))
  }

  /** `err.code && (err.code.startsWith('E') || err.number)`. */
  predicate IsDatabaseError(e: Err) {
    NonEmpty(e.code) && (StartsWith(e.code.value, "E") || (e.number.Some? && e.number.value != 0))
  }

  /** The production classification: database errors first, then the
      validation and cast names; anything else keeps its own properties. */
  function Classify(e: Err): (r: Err)
    requires e.statusCode.Some? && e.status.Some?
    ensures r.statusCode.Some? && r.status.Some?
  {
    if IsDatabaseError(e) then HandleDatabaseError(e)
    else if e.name == "ValidationError" then HandleValidationError(e)
    else if e.name == "CastError" then HandleCastError(e)
    else e
  }

  /** `globalErrorHandler`; `nodeEnv` is `process.env.NODE_ENV`. */
  function GlobalErrorHandler(err: Err, nodeEnv: Option<string>): Rendered {
    var e := WithDefaults(err);
    if nodeEnv == Some("development") then SendErrorDev(e)
    else SendErrorProd(Classify(e))
  }

  /** In development the error is rendered as it is, with 500 and "error"
      standing in for a missing status code and status. */
  lemma DevelopmentRendering(err: Err)
    ensures var r := GlobalErrorHandler(err, Some("development"));
            && r.withDetails && r.message == err.message
            && r.httpStatus == (if err.statusCode.Some? && err.statusCode.value != 0 then err.statusCode.value else 500)
            && r.status == (if NonEmpty(err.status) then err.status.value else "error")
  {
  }

  /** In production a database error is rendered from the decision table,
      whatever its name and whether or not it was operational. */
  lemma ProductionDatabaseError(err: Err, nodeEnv: Option<string>)
    requires nodeEnv != Some("development") && IsDatabaseError(err)
    ensures var d := HandleDatabaseError(WithDefaults(err));
            GlobalErrorHandler(err, nodeEnv) == Rendered(d.statusCode.value, d.status.value, d.message, false)
  {
  }

  /** In production a validation or cast error that is not a database error is a 400. */
  lemma ProductionNamedErrors(err: Err, nodeEnv: Option<string>)
    requires nodeEnv != Some("development") && !IsDatabaseError(err)
    ensures err.name == "ValidationError" ==>
      GlobalErrorHandler(err, nodeEnv) == Rendered(400, "fail", "Invalid input data", false)
    ensures err.name == "CastError" ==>
      GlobalErrorHandler(err, nodeEnv) == Rendered(400, "fail", "Invalid data format", false)
  {
    AppErrorStatus("Invalid input data", 400);
  }

  /** In production an unclassified error that is not operational is always a
      500 "Something went wrong!", whatever status code it carried; an
      operational one keeps its own status code, status and message. */
  lemma ProductionUnclassified(err: Err, nodeEnv: Option<string>)
    requires nodeEnv != Some("development") && !IsDatabaseError(err)
    requires err.name != "ValidationError" && err.name != "CastError"
    ensures err.isOperational != Some(true) ==>
      GlobalErrorHandler(err, nodeEnv) == Rendered(500, "error", "Something went wrong!", false)
    ensures err.isOperational == Some(true) ==>
      GlobalErrorHandler(err, nodeEnv) ==
        Rendered(WithDefaults(err).statusCode.value, WithDefaults(err).status.value, err.message, false)
  {
  }

  /** `notFoundHandler`: an operational 404 naming the URL. */
  function NotFound(originalUrl: string): (e: Err)
    ensures e.statusCode == Some(404) && e.isOperational == Some(true)
  {
    AppError("Can't find " + originalUrl + " on this server!", 404)
  }

  /** The 404 error's message contains the URL, and in production it is sent
      as a 404 with status "fail" and that message. */
  lemma NotFoundRendering(originalUrl: string, nodeEnv: Option<string>)
    ensures Contains(NotFound(originalUrl).message, originalUrl)
    ensures nodeEnv != Some("development") ==>
      GlobalErrorHandler(NotFound(originalUrl), nodeEnv) ==
        Rendered(404, "fail", NotFound(originalUrl).message, false)
  {
    ContainsInfix("Can't find ", originalUrl, " on this server!");
    AppErrorStatus(NotFound(originalUrl).message, 404);
  }
}
