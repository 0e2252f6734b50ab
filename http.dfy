/** Responses of the route handlers: `jsonResponse(data, status)` and `errorResponse(message, status)`. */
module Http {

  datatype Reply<T> =
    | Ok(status: int, value: T)
    | Failed(status: int, message: string)

  const Unauthenticated := "Unauthenticated"
  /** The message of a 422; it joins the validator's form-level errors, with this fallback. */
  const InvalidInput := "Invalid input"
  /** A thrown error that the handler does not catch: the framework answers 500 with no message. */
  const Uncaught := ""

  /** The session cookie's `maxAge`, in seconds: seven days. */
  const SessionMaxAge: int := 60 * 60 * 24 * 7

  /** The session cookie a handler sets: a token signed for `subject`, kept for `maxAge` seconds. */
  datatype SessionCookie = SessionCookie(subject: string, maxAge: int)
}
