/** src/app/interceptors/auth.interceptor.ts: the request interceptor that
    attaches credentials and the bearer token, and the response interceptor
    that refreshes the session once after a 401 and resends the request. */
module AuthInterceptor {
  import opened Wrappers
  import opened Storage
  import opened Http
  import opened AuthServices

  const AuthorizationHeader: string := "Authorization"

  /** The `Authorization` value for an access token: the "Bearer" scheme, one
      space, then the token (section 2.1 of RFC 6750). */
  function BearerCredentials(token: string): string {
    "Bearer " + token
  }

  /** Reads the token back out of a bearer `Authorization` value. */
  function ParseBearer(value: string): Option<string> {
    if StartsWith(value, "Bearer ") then Some(value[7..]) else None
  }

  /** Every bearer value the interceptors write reads back as its token. */
  lemma BearerRoundTrip(token: string)
    ensures ParseBearer(BearerCredentials(token)) == Some(token)
  {
    assert BearerCredentials(token)[..7] == "Bearer ";
    assert BearerCredentials(token)[7..] == token;
  }

  /** `req.clone({ withCredentials: true, setHeaders: { Authorization: ... } })` */
  function WithBearer(req: HttpRequest, token: string): HttpRequest {
    req.(withCredentials := true, headers := req.headers[AuthorizationHeader := BearerCredentials(token)])
  }

  /** `authRequestInterceptor`, given the access token read from
      localStorage: credentials always, the bearer header only for a
      truthy token, every other header untouched. */
  function AuthRequest(req: HttpRequest, accessToken: Option<string>): (r: HttpRequest)
    ensures r.withCredentials && r.url == req.url
    ensures forall h :: h != AuthorizationHeader ==> (h in r.headers <==> h in req.headers)
    ensures forall h :: h != AuthorizationHeader && h in r.headers ==> r.headers[h] == req.headers[h]
    ensures Truthy(accessToken) ==> AuthorizationHeader in r.headers && ParseBearer(r.headers[AuthorizationHeader]) == accessToken
    ensures !Truthy(accessToken) ==> r.headers == req.headers
  {
    if Truthy(accessToken) then
      BearerRoundTrip(accessToken.value);
      WithBearer(req, accessToken.value)
    else
      req.(withCredentials := true)
  }

  /** Passing a request through the interceptor twice is the same as once. */
  lemma AuthRequestIdempotent(req: HttpRequest, accessToken: Option<string>)
    ensures AuthRequest(AuthRequest(req, accessToken), accessToken) == AuthRequest(req, accessToken)
  {
  }

  /** What one intercepted request amounts to: the requests handed to the
      next handler, the number of refresh calls, and what the caller gets. */
  datatype Trace = Trace(sent: seq<HttpRequest>, refreshes: nat, outcome: Result<HttpResponse, HttpError>)

  /** What the caller gets after a resend: its reply, or the original error
      when the resend fails too (the `catchError` after `switchMap` catches
      the resend's error as well as the refresh's). */
  function ResendOutcome(first: Result<HttpResponse, HttpError>, resend: Result<HttpResponse, HttpError>): (r: Result<HttpResponse, HttpError>)
    ensures resend.Success? ==> r == resend
    ensures resend.Failure? ==> r == first
  {
    if resend.Success? then resend else first
  }

  /** `AuthResponseInterceptor.intercept` as written, from the `isRetry`
      flag before the call to the trace and the flag after it. `first` is the
      reply to `req`, `refresh` the reply to the refresh call (consulted only
      if one is made), `resend` the reply to the resent request. */
  function InterceptAsWritten(isRetry: bool, req: HttpRequest, first: Result<HttpResponse, HttpError>,
                              refresh: Result<Tokens, HttpError>, resend: Result<HttpResponse, HttpError>): (r: (Trace, bool))
    ensures r.0.refreshes <= 1 && 1 <= |r.0.sent| <= 2 && r.0.sent[0] == req
    ensures r.0.refreshes == 1 <==> first.Failure? && first.error.status == 401 && !isRetry
    ensures |r.0.sent| == 2 <==> r.0.refreshes == 1 && refresh.Success?
    ensures r.0.outcome == first || r.0.outcome == resend
    ensures r.1 <==> (r.0.refreshes == 0 && isRetry) || (r.0.refreshes == 1 && refresh.Failure?)
  {
    if first.Failure? && first.error.status == 401 && !isRetry then
      match refresh
      case Success(tokens) => (Trace([req, WithBearer(req, tokens.accessToken)], 1, ResendOutcome(first, resend)), false)
      case Failure(_) => (Trace([req], 1, first), true)
    else
      (Trace([req], 0, first), isRetry)
  }

  /** A reply that is not an error, or an error other than 401, reaches the
      caller unchanged and triggers no refresh. */
  lemma OtherRepliesPassThrough(isRetry: bool, req: HttpRequest, first: Result<HttpResponse, HttpError>,
                                refresh: Result<Tokens, HttpError>, resend: Result<HttpResponse, HttpError>)
    requires first.Success? || first.error.status != 401
    ensures InterceptAsWritten(isRetry, req, first, refresh, resend) == (Trace([req], 0, first), isRetry)
  {
  }

  /** A 401 while not retrying triggers exactly one refresh; a successful
      refresh resends the request once, with the new bearer token, clears
      the flag and hands back the resent request's reply, or the original 401
      if the resend fails; a failed refresh hands back the original 401, not
      the refresh error, and leaves the flag set. */
  lemma UnauthorizedRefreshesOnce(req: HttpRequest, first: Result<HttpResponse, HttpError>,
                                  refresh: Result<Tokens, HttpError>, resend: Result<HttpResponse, HttpError>)
    requires first.Failure? && first.error.status == 401
    ensures InterceptAsWritten(false, req, first, refresh, resend).0.refreshes == 1
    ensures refresh.Success? ==>
      InterceptAsWritten(false, req, first, refresh, resend) == (Trace([req, WithBearer(req, refresh.value.accessToken)], 1, ResendOutcome(first, resend)), false)
    ensures resend.Failure? ==> InterceptAsWritten(false, req, first, refresh, resend).0.outcome == first
    ensures refresh.Success? ==> ParseBearer(WithBearer(req, refresh.value.accessToken).headers[AuthorizationHeader]) == Some(refresh.value.accessToken)
    ensures refresh.Failure? ==> InterceptAsWritten(false, req, first, refresh, resend) == (Trace([req], 1, first), true)
  {
    if refresh.Success? {
      BearerRoundTrip(refresh.value.accessToken);
    }
  }

  /** Once a refresh has failed, the flag stays set, so a later 401 on any
      request of the same interceptor is handed back without a refresh, even
      when a refresh would now succeed. */
  lemma StuckAfterFailedRefresh(req1: HttpRequest, err1: HttpError, refreshError: HttpError,
                                req2: HttpRequest, err2: HttpError, tokens: Tokens, resend: Result<HttpResponse, HttpError>)
    requires err1.status == 401 && err2.status == 401
    ensures var (_, flag) := InterceptAsWritten(false, req1, Failure(err1), Failure(refreshError), resend);
            InterceptAsWritten(flag, req2, Failure(err2), Success(tokens), resend).0 == Trace([req2], 0, Failure(err2))
  {
  }

  /** The interceptor with the flag cleared after a failed refresh as well,
      so that the one-retry limit applies per request. */
  function InterceptPerRequest(isRetry: bool, req: HttpRequest, first: Result<HttpResponse, HttpError>,
                               refresh: Result<Tokens, HttpError>, resend: Result<HttpResponse, HttpError>): (r: (Trace, bool))
    ensures r.0 == InterceptAsWritten(isRetry, req, first, refresh, resend).0
    ensures !isRetry ==> !r.1
    ensures r.1 ==> r.0.refreshes == 0
  {
    var (t, flag) := InterceptAsWritten(isRetry, req, first, refresh, resend);
    (t, flag && isRetry)
  }

  /** With the corrected flag handling, the flag is never left set, so every
      401 gets exactly one refresh, and the trace of each call is the one the
      code as written gives a fresh interceptor. */
  lemma EveryUnauthorizedGetsOneRefresh(req: HttpRequest, first: Result<HttpResponse, HttpError>,
                                        refresh: Result<Tokens, HttpError>, resend: Result<HttpResponse, HttpError>)
    ensures InterceptPerRequest(false, req, first, refresh, resend).1 == false
    ensures InterceptPerRequest(false, req, first, refresh, resend).0 == InterceptAsWritten(false, req, first, refresh, resend).0
    ensures first.Failure? && first.error.status == 401 ==> InterceptPerRequest(false, req, first, refresh, resend).0.refreshes == 1
    ensures first.Failure? && first.error.status == 401 && refresh.Failure? ==>
      InterceptPerRequest(false, req, first, refresh, resend).0.outcome == first
  {
  }

  /** `AuthResponseInterceptor`, one instance per application. */
  class AuthResponseInterceptor {
    const auth: AuthService
    var isRetry: bool

    constructor (auth: AuthService)
      ensures this.auth == auth && !isRetry
    {
      this.auth := auth;
      isRetry := false;
    }

    /** `intercept`, with the downstream replies as inputs: the trace and the
        new flag are the ones `InterceptAsWritten` gives; a refresh updates
        the session flag as `refresh` does and, on success, stores the new
        access token. */
    method Intercept(req: HttpRequest, first: Result<HttpResponse, HttpError>,
                     refresh: Result<Tokens, HttpError>, resend: Result<HttpResponse, HttpError>) returns (t: Trace)
      modifies this`isRetry, auth`isAuth, auth.store
      ensures (t, isRetry) == InterceptAsWritten(old(isRetry), req, first, refresh, resend)
      ensures t.refreshes == 0 ==> auth.isAuth == old(auth.isAuth) && auth.store.items == old(auth.store.items)
      ensures t.refreshes == 1 && refresh.Success? ==>
        auth.isAuth && auth.store.items == old(auth.store.items)[AccessTokenKey := refresh.value.accessToken]
      ensures t.refreshes == 1 && refresh.Failure? ==>
        auth.store.items == old(auth.store.items) && auth.isAuth == (refresh.error.status != 401 && old(auth.isAuth))
    {
      if first.Failure? && first.error.status == 401 && !isRetry {
        isRetry := true;
        var refreshed := auth.OnRefreshReply(refresh);
        match refreshed {
          case Success(tokens) =>
            auth.store.SetItem(AccessTokenKey, tokens.accessToken);
            var cloned := WithBearer(req, tokens.accessToken);
            isRetry := false;
            t := Trace([req, cloned], 1, ResendOutcome(first, resend));
          case Failure(_) =>
            t := Trace([req], 1, first);
        }
      } else {
        t := Trace([req], 0, first);
      }
    }
  }
}
