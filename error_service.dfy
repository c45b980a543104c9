/**
 * The error service (services/errorService.js): its own copies of the
 * database and token mappers, a mapper for failed outbound HTTP calls, and a
 * production reply that also echoes the status code.
 */
module ErrorService {
  import opened Wrappers
  import opened Strings
  import opened AppErrors
  import opened Constants
  import ErrorController

  type RawError = ErrorController.RawError

  // The five mappers below repeat the controller's on purpose: services/errorService.js
  // has its own copies, and MappersAgreeWithController proves the two sets equal.

  function HandleCastErrorDB(e: RawError): AppError {
    AppError("Invalid " + e.path + ": " + e.value, BAD_REQUEST)
  }

  function HandleDuplicateFieldsDB(e: RawError): AppError {
    var field := if |e.keyValue| > 0 then e.keyValue[0].0 else "undefined";
    var value := if |e.keyValue| > 0 then e.keyValue[0].1 else "undefined";
    AppError("Duplicate field " + field + ", value: " + value + ". Please enter another value", BAD_REQUEST)
  }

  function HandleValidationErrorDB(e: RawError): AppError {
    AppError("Invalid input value: " + Join(e.errorMessages, ". "), BAD_REQUEST)
  }

  function HandleJWTError(): AppError {
    AppError("Invalid token. Please log in again!", UNAUTHORIZED)
  }

  function HandleJWTExpiredError(): AppError {
    AppError("Your token has been expired! Please log in again!", UNAUTHORIZED)
  }

  /** The service's mappers answer every error exactly as the controller's do. */
  lemma MappersAgreeWithController(e: RawError)
    ensures HandleCastErrorDB(e) == ErrorController.HandleCastErrorDB(e)
    ensures HandleDuplicateFieldsDB(e) == ErrorController.HandleDuplicateFieldsDB(e)
    ensures HandleValidationErrorDB(e) == ErrorController.HandleValidationErrorDB(e)
    ensures HandleJWTError() == ErrorController.HandleJWTError()
    ensures HandleJWTExpiredError() == ErrorController.HandleJWTExpiredError()
  {
  }

  /** An outbound request failure: `response.data` is Some(its JSON text) when it is truthy. */
  datatype AxiosResponse = AxiosResponse(data: Option<string>)
  datatype AxiosError = AxiosError(response: Option<AxiosResponse>, message: string)

  const AXIOS_DEFAULT_MESSAGE: string := "Request to external service failed"

  /**
   * The response body wins over the error message, which wins over the fixed
   * default text; the code is always 500.
   */
  function HandleAxiosError(err: AxiosError): (e: AppError)
    ensures e.statusCode == SERVER_ERROR
    ensures err.response.Some? && err.response.value.data.Some? ==>
      e.message == "External API error: " + err.response.value.data.value
    ensures !(err.response.Some? && err.response.value.data.Some?) && err.message != "" ==>
      e.message == "Request failed: " + err.message
    ensures !(err.response.Some? && err.response.value.data.Some?) && err.message == "" ==>
      e.message == AXIOS_DEFAULT_MESSAGE
  {
    var message :=
      if err.response.Some? && err.response.value.data.Some? then "External API error: " + err.response.value.data.value
      else if err.message != "" then "Request failed: " + err.message
      else AXIOS_DEFAULT_MESSAGE;
    AppError(message, SERVER_ERROR)
  }

  /** The three texts begin differently, so the message alone tells which case produced it. */
  lemma AxiosMessageTellsCase(err: AxiosError)
    ensures StartsWith(HandleAxiosError(err).message, "External API error: ") <==>
      err.response.Some? && err.response.value.data.Some?
    ensures StartsWith(HandleAxiosError(err).message, "Request failed: ") <==>
      !(err.response.Some? && err.response.value.data.Some?) && err.message != ""
  {
    var m := HandleAxiosError(err).message;
    if !(err.response.Some? && err.response.value.data.Some?) {
      assert m[0] != "External API error: "[0];
      if err.message == "" {
        assert m[8] != "Request failed: "[8];
      }
    } else {
      assert m[0] != "Request failed: "[0];
    }
  }

  /**
   * `sendErrorProd` of the service: like the controller's, except that an
   * operational error's body also carries `statusCode`, defaulting to 500.
   */
  function SendErrorProd(error: RawError, originalUrl: string): (r: ErrorController.Reply)
    ensures StartsWith(originalUrl, "/api") && error.isOperational ==>
      r == ErrorController.Json(error.statusCode,
        ErrorController.OperationalJson(error.statusCode, error.message, Some(ErrorController.DefaultCode(error.statusCode))))
    ensures StartsWith(originalUrl, "/api") && !error.isOperational ==>
      r == ErrorController.Json(Some(SERVER_ERROR), ErrorController.GenericJson("error", ErrorController.GENERIC_MESSAGE))
  {
    if StartsWith(originalUrl, "/api") then
      if error.isOperational then
        ErrorController.Json(error.statusCode,
          ErrorController.OperationalJson(error.statusCode, error.message, Some(ErrorController.DefaultCode(error.statusCode))))
      else ErrorController.Json(Some(SERVER_ERROR), ErrorController.GenericJson("error", ErrorController.GENERIC_MESSAGE))
    else if originalUrl != "" then ErrorController.Page(error.statusCode, "Something went wrong !", error.message)
    else ErrorController.Page(error.statusCode, "Something went wrong", "Please try again later.")
  }

  /** An operational error without a code still reports statusCode 500 in the body. */
  lemma OperationalWithoutCodeReports500(error: RawError, originalUrl: string)
    requires StartsWith(originalUrl, "/api") && error.isOperational && error.statusCode == None
    ensures SendErrorProd(error, originalUrl).body.statusCode == Some(500)
    ensures SendErrorProd(error, originalUrl).body.code == None
  {
  }
}
