/** HTTP status codes and lockout parameters shared by the services (utils/constants.js). */
module Constants {
  const BAD_REQUEST: int := 400
  const UNAUTHORIZED: int := 401
  const FORBIDDEN: int := 403
  const NOT_FOUND: int := 404
  const SERVER_ERROR: int := 500

  /** Failed logins after which an account is locked. */
  const MAX_ATTEMPTS: int := 3
  /** How long a lock lasts, in milliseconds (ten minutes). */
  const LOCK_TIME: int := 10 * 60 * 1000
}
