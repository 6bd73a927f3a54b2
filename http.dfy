/** How the server's code ends: a value, an `HTTPException`, or any other exception. */
module ServerHttp {

  /**
   * FastAPI's `HTTPException(status_code, detail, headers)`; the only header
   * these server modules set is `WWW-Authenticate: Bearer` (section 3 of
   * RFC 6750).
   */
  datatype HttpError = HttpError(status: int, detail: string, bearerChallenge: bool)

  /** `Raise` is an `HTTPException`; `Crash` any other exception, which FastAPI answers with 500. */
  datatype Outcome<+T> = Ok(value: T) | Raise(error: HttpError) | Crash(reason: string)
  {
    /** The status code the client receives when this outcome is an error. */
    function StatusCode(): int
      requires !Ok?
    {
      if Raise? then error.status else 500
    }
  }

  function Fail<T>(status: int, detail: string): Outcome<T> {
    Raise(HttpError(status, detail, false))
  }

  /** An error carrying `WWW-Authenticate: Bearer`. */
  function Challenge<T>(status: int, detail: string): Outcome<T> {
    Raise(HttpError(status, detail, true))
  }

  const BadRequest := 400
  const Unauthorized := 401
  const Forbidden := 403
  const NotFound := 404
  const Unprocessable := 422
  const InternalServerError := 500
  const ServiceUnavailable := 503
  const GatewayTimeout := 504
}
