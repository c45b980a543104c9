/**
 * The application's operational error (utils/appError.js). Only the message
 * and the status code are given; `status` is derived from the decimal text of
 * the code and every such error is operational.
 */
module AppErrors {
  import opened Strings

  datatype AppError = AppError(message: string, statusCode: int) {

    /** 'fail' when `${statusCode}` starts with '4', 'error' otherwise. */
    function Status(): string {
      if StartsWith(IntToString(statusCode), "4") then "fail" else "error"
    }

    /** An AppError is always an anticipated, operational error. */
    predicate IsOperational() {
      true
    }
  }

  /**
   * For an HTTP status code (three digits) the derived status is 'fail'
   * exactly for the 4xx codes, and 'error' for every other code, 200 and the
   * 5xx codes included.
   */
  lemma StatusOfHttpCode(e: AppError)
    requires 100 <= e.statusCode <= 999
    ensures e.Status() == "fail" <==> 400 <= e.statusCode <= 499
    ensures e.Status() == "error" <==> !(400 <= e.statusCode <= 499)
    ensures e.IsOperational()
  {
    ThreeDigitLeading(e.statusCode);
    var s := IntToString(e.statusCode);
    assert StartsWith(s, "4") <==> s[0] == '4';
  }

  /** The non-fatal webhook outcomes are thrown with code 200 and therefore carry status 'error'. */
  lemma NonFatalStatusIsError(message: string)
    ensures AppError(message, 200).Status() == "error"
  {
    StatusOfHttpCode(AppError(message, 200));
  }
}
