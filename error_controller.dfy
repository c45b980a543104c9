/**
 * The global error handler (controllers/errorController.js): it defaults the
 * status code and status, and in production maps the known database and
 * token errors onto operational AppErrors before choosing the reply.
 */
module ErrorController {
  import opened Wrappers
  import opened Strings
  import opened AppErrors
  import opened Failures
  import opened Constants

  /**
   * The error object the handler receives, reduced to the fields it reads.
   * Fields the object does not have are None, "" or empty.
   */
  datatype RawError = RawError(
    name: string,
    message: string,
    statusCode: Option<int>,
    status: Option<string>,
    isOperational: bool,
    code: Option<int>,                 // MongoDB driver error code
    path: string,                      // CastError: the path that failed to cast
    value: string,                     // CastError: the value, as a template string prints it
    keyValue: seq<(string, string)>,   // duplicate-key error: the offending keys, in key order
    errorMessages: seq<string>)        // ValidationError: the message of each failing path

  /** An AppError as the handler sees it: its name is the inherited 'Error' and it has no driver code. */
  function FromAppError(e: AppError): RawError {
    RawError("Error", e.message, Some(e.statusCode), Some(e.Status()), e.IsOperational(), None, "", "", [], [])
  }

  /** The error object a service failure reaches the handler as. */
  function ToRawError(f: Failure): RawError {
    match f
    case Raised(e) => FromAppError(e)
    case ValidationFailed(ms) => RawError("ValidationError", "Validation failed: " + Join(ms, ", "), None, None, false, None, "", "", [], ms)
    case TypeErrorThrown(m) => RawError("TypeError", m, None, None, false, None, "", "", [], [])
    case JwtFailed(JsonWebTokenError) => RawError("JsonWebTokenError", "invalid token", None, None, false, None, "", "", [], [])
    case JwtFailed(TokenExpiredError) => RawError("TokenExpiredError", "jwt expired", None, None, false, None, "", "", [], [])
  }

  function HandleCastErrorDB(e: RawError): AppError {
    AppError("Invalid " + e.path + ": " + e.value, BAD_REQUEST)
  }

  /** Only the first key of keyValue is reported; with no keys both parts print as 'undefined'. */
  function HandleDuplicateFieldsDB(e: RawError): AppError {
    var field := if |e.keyValue| > 0 then e.keyValue[0].0 else "undefined";
    var value := if |e.keyValue| > 0 then e.keyValue[0].1 else "undefined";
    AppError("Duplicate field " + field + ", value: " + value + ". Please enter another value", BAD_REQUEST)
  }

  function HandleValidationErrorDB(e: RawError): AppError {
    AppError("Invalid input value: " + Join(e.errorMessages, ". "), BAD_REQUEST)
  }

  function HandleJWTError(): AppError {
    AppError("Invalid token. Please log in again!", UNAUTHORIZED)
  }

  function HandleJWTExpiredError(): AppError {
    AppError("Your token has been expired! Please log in again!", UNAUTHORIZED)
  }

  /** What the handler sends back. */
  datatype Body =
    | DevJson(status: string, message: string)
    | OperationalJson(code: Option<int>, message: string, statusCode: Option<int>)
    | GenericJson(status: string, msg: string)

  datatype Reply =
    | Json(httpStatus: Option<int>, body: Body)
    | Page(httpStatus: Option<int>, title: string, msg: string)
    | NoReply

  const GENERIC_MESSAGE: string := "Something went very wrong (●/ω＼●)"

  /** `err.statusCode || 500`: an absent or zero code becomes 500. */
  function DefaultCode(c: Option<int>): int {
    if c.Some? && c.value != 0 then c.value else SERVER_ERROR
  }

  /** `err.status || 'error'` */
  function DefaultStatus(s: Option<string>): string {
    if s.Some? && s.value != "" then s.value else "error"
  }

  /**
   * Reference definition of the production mapping: the FIRST of the five
   * recognisers that matches decides the AppError; None when none matches.
   */
  function KnownError(e: RawError): Option<AppError> {
    if e.name == "CastError" then Some(HandleCastErrorDB(e))
    else if e.code == Some(11000) then Some(HandleDuplicateFieldsDB(e))
    else if e.name == "ValidationError" then Some(HandleValidationErrorDB(e))
    else if e.name == "JsonWebTokenError" then Some(HandleJWTError())
    else if e.name == "TokenExpiredError" then Some(HandleJWTExpiredError())
    else None
  }

  /**
   * `sendErrorProd` of the controller: on /api an operational error is sent
   * with its own code and message, anything else as a generic 500; pages are
   * rendered with the error's code.
   */
  function SendErrorProd(error: RawError, originalUrl: string): (r: Reply)
    ensures StartsWith(originalUrl, "/api") && error.isOperational ==>
      r == Json(error.statusCode, OperationalJson(error.statusCode, error.message, None))
    ensures StartsWith(originalUrl, "/api") && !error.isOperational ==>
      r == Json(Some(SERVER_ERROR), GenericJson("error", GENERIC_MESSAGE))
    ensures !StartsWith(originalUrl, "/api") ==> r.Page? && r.httpStatus == error.statusCode
    ensures !StartsWith(originalUrl, "/api") && originalUrl != "" ==> r.title == "Something went wrong !" && r.msg == error.message
    ensures originalUrl == "" ==> r.title == "Something went wrong" && r.msg == "Please try again later."
  {
    if StartsWith(originalUrl, "/api") then
      if error.isOperational then Json(error.statusCode, OperationalJson(error.statusCode, error.message, None))
      else Json(Some(SERVER_ERROR), GenericJson("error", GENERIC_MESSAGE))
    else if originalUrl != "" then Page(error.statusCode, "Something went wrong !", error.message)
    else Page(error.statusCode, "Something went wrong", "Please try again later.")
  }

  /** The error after `err.statusCode = err.statusCode || 500` and `err.status = err.status || 'error'`. */
  function Defaulted(err: RawError): RawError {
    err.(statusCode := Some(DefaultCode(err.statusCode)), status := Some(DefaultStatus(err.status)))
  }

  /** The error `sendErrorProd` receives: the first matching mapper's AppError, else the defaulted error. */
  function ProductionError(err: RawError): RawError {
    match KnownError(err)
    case Some(a) => FromAppError(a)
    case None => Defaulted(err)
  }

  /**
   * The exported handler. The error is first given its default code and
   * status; in development it is echoed; in production the if-chain replaces
   * it by the mapped AppError, and later tests in the chain see that AppError.
   */
  method GlobalErrorHandler(err: RawError, nodeEnv: string, originalUrl: string) returns (reply: Reply)
    ensures nodeEnv == "development" && StartsWith(originalUrl, "/api") ==>
      reply == Json(Some(DefaultCode(err.statusCode)), DevJson(DefaultStatus(err.status), err.message))
    ensures nodeEnv == "development" && !StartsWith(originalUrl, "/api") ==>
      reply == Page(Some(DefaultCode(err.statusCode)), "Something went wrong!", err.message)
    ensures nodeEnv == "production" ==> reply == SendErrorProd(ProductionError(err), originalUrl)
    ensures nodeEnv == "production" && StartsWith(originalUrl, "/api") ==>
      match KnownError(err)
      case Some(a) => reply == Json(Some(a.statusCode), OperationalJson(Some(a.statusCode), a.message, None))
      case None =>
        if err.isOperational
        then reply == Json(Some(DefaultCode(err.statusCode)), OperationalJson(Some(DefaultCode(err.statusCode)), err.message, None))
        else reply == Json(Some(SERVER_ERROR), GenericJson("error", GENERIC_MESSAGE))
    ensures nodeEnv == "production" && !StartsWith(originalUrl, "/api") ==>
      var code := if KnownError(err).Some? then KnownError(err).value.statusCode else DefaultCode(err.statusCode);
      var message := if KnownError(err).Some? then KnownError(err).value.message else err.message;
      reply == if originalUrl != "" then Page(Some(code), "Something went wrong !", message)
               else Page(Some(code), "Something went wrong", "Please try again later.")
    ensures nodeEnv != "development" && nodeEnv != "production" ==> reply == NoReply
  {
    var e := err.(statusCode := Some(DefaultCode(err.statusCode)), status := Some(DefaultStatus(err.status)));
    if nodeEnv == "development" {
      if StartsWith(originalUrl, "/api") {
        reply := Json(e.statusCode, DevJson(e.status.value, e.message));
      } else {
        reply := Page(e.statusCode, "Something went wrong!", e.message);
      }
    } else if nodeEnv == "production" {
      var error := e;
      if error.name == "CastError" { error := FromAppError(HandleCastErrorDB(error)); }
      if error.code == Some(11000) { error := FromAppError(HandleDuplicateFieldsDB(error)); }
      if error.name == "ValidationError" { error := FromAppError(HandleValidationErrorDB(error)); }
      if error.name == "JsonWebTokenError" { error := FromAppError(HandleJWTError()); }
      if error.name == "TokenExpiredError" { error := FromAppError(HandleJWTExpiredError()); }
      reply := SendErrorProd(error, originalUrl);
    } else {
      reply := NoReply;
    }
  }

  /**
   * Every AppError a service throws reaches a production /api client with its
   * own code and message; in particular the webhook's code-200 outcomes are
   * answered with HTTP 200, which the gateway takes as delivered.
   */
  lemma {:induction false} AppErrorReplyInProduction(a: AppError, originalUrl: string)
    requires StartsWith(originalUrl, "/api")
    ensures KnownError(ToRawError(Raised(a))) == None
    ensures SendErrorProd(ToRawError(Raised(a)), originalUrl) ==
      Json(Some(a.statusCode), OperationalJson(Some(a.statusCode), a.message, None))
  {
  }

  /** A ValidationError is answered 400 with every failing message, joined by ". ". */
  lemma ValidationFailureReply(ms: seq<string>)
    ensures KnownError(ToRawError(ValidationFailed(ms))) ==
      Some(AppError("Invalid input value: " + Join(ms, ". "), BAD_REQUEST))
  {
  }

  /** Token errors become 401s with fixed messages; a bare TypeError is not operational and becomes the generic 500. */
  lemma ThrownErrorsClassified(k: JwtError, m: string)
    ensures KnownError(ToRawError(JwtFailed(k))).Some?
    ensures KnownError(ToRawError(JwtFailed(k))).value.statusCode == UNAUTHORIZED
    ensures KnownError(ToRawError(TypeErrorThrown(m))) == None && !ToRawError(TypeErrorThrown(m)).isOperational
  {
  }
}
