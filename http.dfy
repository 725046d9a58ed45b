/** The shapes of requests, replies and errors that pass through Angular's
    HttpClient, reduced to the parts the front end looks at. */
module Http {
  import opened Wrappers

  /** An outgoing request: its URL, its headers and the `withCredentials` flag. */
  datatype HttpRequest = HttpRequest(url: string, headers: map<string, string>, withCredentials: bool)

  /** A successful reply. */
  datatype HttpResponse = HttpResponse(status: int, body: string)

  /** The parsed error body (`error.error`); `message` is absent when the
      body has no truthy `message` property (a plain-text body, say). */
  datatype ErrorBody = ErrorBody(message: Option<string>)

  /** `HttpErrorResponse`: the status, Angular's own `message`, and the body,
      which is `null` (None) when the server sent none. */
  datatype HttpError = HttpError(status: int, message: string, body: Option<ErrorBody>)

  /** `err.error?.message || fallback`: the server's message when it is truthy. */
  function ServerMessageOr(e: HttpError, fallback: string): (r: string)
    ensures e.body.Some? && Truthy(e.body.value.message) ==> r == e.body.value.message.value
    ensures !(e.body.Some? && Truthy(e.body.value.message)) ==> r == fallback
  {
    match e.body
    case Some(ErrorBody(Some(m))) => if m != "" then m else fallback
    case _ => fallback
  }
}
