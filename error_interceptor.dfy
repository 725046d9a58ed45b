/** `errorInterceptor` of src/app/interceptors/error.interceptor.ts: which
    failed requests are reported to the global error channel, with which
    message, and what the caller receives. */
module ErrorInterceptor {
  import opened Wrappers
  import opened Http

  /** What the caller's error channel receives: the request's own error, or
      the `TypeError` raised inside the handler. */
  datatype Thrown = Original(error: HttpError) | TypeError

  /** The handler's effect: the message passed to `errorService.handle`, if
      any, and what is thrown on. */
  datatype Handling = Handling(reported: Option<string>, thrown: Thrown)

  /** Errors left to the caller: every 401, and a 400 on an auth endpoint. */
  function Silenced(url: string, e: HttpError): (r: bool)
    ensures e.status == 401 ==> r
    ensures e.status == 400 ==> (r <==> Contains(url, "/auth"))
    ensures r ==> e.status == 400 || e.status == 401
  {
    (e.status == 400 && Contains(url, "/auth")) || e.status == 401
  }

  /** The message reported: the body's `message` when truthy, otherwise the
      error's own `message`. */
  function ReportMessage(e: HttpError): (m: string)
    ensures e.body.Some? && Truthy(e.body.value.message) ==> m == e.body.value.message.value
    ensures !(e.body.Some? && Truthy(e.body.value.message)) ==> m == e.message
  {
    ServerMessageOr(e, e.message)
  }

  /** The handler as written: `error.error.message` dereferences the body,
      so a `null` body raises a `TypeError` before anything is reported. */
  function HandleAsWritten(url: string, e: HttpError): (h: Handling)
    ensures h.thrown == TypeError <==> !Silenced(url, e) && e.body.None?
    ensures h.thrown != TypeError ==> h.thrown == Original(e)
    ensures h.reported.Some? <==> !Silenced(url, e) && e.body.Some?
    ensures h.reported.Some? ==> h.reported.value == ReportMessage(e)
  {
    if Silenced(url, e) then Handling(None, Original(e))
    else if e.body.None? then Handling(None, TypeError)
    else Handling(Some(ReportMessage(e)), Original(e))
  }

  /** A 500 with an empty body: the code as written reports nothing and
      hands the caller a `TypeError` instead of the 500. */
  lemma NullBodyLosesTheError()
    ensures HandleAsWritten("/products", HttpError(500, "Http failure response", None)) == Handling(None, TypeError)
  {
    NotContainsMissingChar("/products", "/auth", 1);
  }

  /** The handler with the body read through optional chaining
      (`error.error?.message`), as the order page reads it. */
  function Handle(url: string, e: HttpError): (h: Handling)
    ensures h.thrown == Original(e)
    ensures h.reported.None? <==> Silenced(url, e)
  {
    if Silenced(url, e) then Handling(None, Original(e))
    else Handling(Some(ReportMessage(e)), Original(e))
  }

  /** The corrected handler never reports a 401, nor a 400 on a URL that
      contains "/auth"; it reports every other error, a 400 elsewhere
      included, exactly once and with `ReportMessage`; it always throws the
      original error on; and wherever the code as written does not crash,
      the two agree. */
  lemma HandleClassification(url: string, e: HttpError)
    ensures e.status == 401 ==> Handle(url, e).reported.None?
    ensures e.status == 400 && Contains(url, "/auth") ==> Handle(url, e).reported.None?
    ensures e.status != 401 && !(e.status == 400 && Contains(url, "/auth")) ==>
      Handle(url, e).reported == Some(ReportMessage(e))
    ensures HandleAsWritten(url, e).thrown != TypeError ==> HandleAsWritten(url, e) == Handle(url, e)
    ensures HandleAsWritten(url, e).thrown == TypeError <==> !Silenced(url, e) && e.body.None?
  {
  }

  /** Any URL with "/auth" in it silences a 400: the login endpoint, say. */
  lemma AuthEndpointsSilenceBadRequest(base: string, e: HttpError)
    requires e.status == 400
    ensures Handle(base + "/auth/login", e).reported.None?
  {
    var url := base + "/auth/login";
    assert url[|base|..|base| + 5] == "/auth";
    ContainsAt(url, "/auth", |base|);
  }
}
