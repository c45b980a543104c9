/** What a service call throws instead of returning normally. */
module Failures {
  import opened AppErrors

  /** The two errors `jsonwebtoken`'s verify raises. */
  datatype JwtError = JsonWebTokenError | TokenExpiredError

  datatype Failure =
      /** `throw new AppError(message, statusCode)` */
    | Raised(error: AppError)
      /** a Mongoose ValidationError: the message of each failing path, in schema order */
    | ValidationFailed(messages: seq<string>)
      /** a TypeError from reading a property of `undefined` or `null` */
    | TypeErrorThrown(message: string)
      /** the token could not be verified */
    | JwtFailed(kind: JwtError)
}
