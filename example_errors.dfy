/** example/errors.go: the example application's own error type and its fixed errors. */
module ExampleErrors {
  import Calls

  /** An error with the status it is answered with and its message. */
  datatype Error = Error(responseCode: int, message: string)
  {
    /** Go's `Error()`: the error's text is its message. */
    function ErrorText(): (s: string)
      ensures s == message
    {
      message
    }

    function Message(): (s: string)
      ensures s == message
    {
      message
    }

    function StatusCode(): (c: int)
      ensures c == responseCode
    {
      responseCode
    }

    /** The error as the request pipeline sees it: `http.Error` answers with
        `Message()` and `StatusCode()`. */
    function AsApiError(): (a: Calls.ApiError)
      ensures a == Calls.Raised(StatusCode(), Message())
    {
      Calls.Raised(responseCode, message)
    }
  }

  const ErrInternal: Error := Error(500, "Server error.")
  const ErrLogin: Error := Error(401, "Please login.")
  const ErrAuthorization: Error := Error(403, "Unauthorized request.")

  /** A client error: status 400 with the given message. */
  function NewRequestError(msg: string): (e: Error)
    ensures e.StatusCode() == 400 && e.Message() == msg && e.ErrorText() == msg
  {
    Error(400, msg)
  }

  /** The fixed errors answer 500, 401 and 403, so a client can tell them apart by
      status alone, and none of them is a request error. */
  lemma FixedStatuses(msg: string)
    ensures ErrInternal.StatusCode() == 500 && ErrLogin.StatusCode() == 401
    ensures ErrAuthorization.StatusCode() == 403
    ensures ErrInternal.AsApiError() != ErrLogin.AsApiError()
    ensures ErrLogin.AsApiError() != ErrAuthorization.AsApiError()
    ensures ErrInternal.AsApiError() != ErrAuthorization.AsApiError()
    ensures NewRequestError(msg) != ErrInternal && NewRequestError(msg) != ErrLogin
    ensures NewRequestError(msg) != ErrAuthorization
  {
  }
}
