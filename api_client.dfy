/** The shared HTTP client's two interceptors: the request interceptor that
    attaches the identity provider's session token as a bearer header, and
    the response interceptor that logs failures and passes them on. */
module ApiClient {
  import opened Common

  const AuthorizationHeader := "Authorization"
  const BearerPrefix := "Bearer "

  /** What `getToken()` settles to: a token (possibly null or empty) or a thrown error. */
  datatype TokenReply = Token(token: Option<string>) | TokenThrew(error: string)

  /** `window.Clerk?.session`: absent, or a session whose `getToken` gives `reply`. */
  datatype ClerkSession = NoSession | Session(reply: TokenReply)

  /** The header value the request interceptor attaches, if any. */
  function BearerFor(session: ClerkSession): (r: Option<string>)
    ensures r.Some? <==> session.Session? && session.reply.Token? && TruthyStr(session.reply.token)
    ensures r.Some? ==> r.value == BearerPrefix + session.reply.token.value
  {
    if session.Session? && session.reply.Token? && TruthyStr(session.reply.token)
    then Some(BearerPrefix + session.reply.token.value)
    else None
  }

  /** The token is recoverable from the header: it is everything after the prefix. */
  lemma BearerCarriesToken(session: ClerkSession)
    requires BearerFor(session).Some?
    ensures |BearerFor(session).value| > |BearerPrefix|
    ensures BearerFor(session).value[..|BearerPrefix|] == BearerPrefix
    ensures BearerFor(session).value[|BearerPrefix|..] == session.reply.token.value
  {
    var h := BearerFor(session).value;
    assert h == BearerPrefix + session.reply.token.value;
  }

  /** An outgoing request's configuration; the interceptor edits its headers in place. */
  class RequestConfig {
    var headers: map<string, string>

    constructor(headers: map<string, string>)
      ensures this.headers == headers
    {
      this.headers := headers;
    }
  }

  /** The request interceptor. It reports whether it logged a token error,
      and lets the request proceed in every case. */
  method AttachToken(config: RequestConfig, session: ClerkSession) returns (loggedError: bool)
    modifies config
    ensures BearerFor(session).Some? ==>
      config.headers == old(config.headers)[AuthorizationHeader := BearerFor(session).value]
    ensures BearerFor(session).None? ==> config.headers == old(config.headers)
    ensures loggedError <==> session.Session? && session.reply.TokenThrew?
  {
    loggedError := false;
    if session.Session? {
      match session.reply
      case TokenThrew(_) =>
        loggedError := true;
      case Token(token) =>
        if TruthyStr(token) {
          config.headers := config.headers[AuthorizationHeader := BearerPrefix + token.value];
        }
    }
  }

  /** A failed request as the client reports it: the response status and
      body when a response arrived, and the error message. */
  datatype ApiError = ApiError(status: Option<int>, data: Option<string>, message: string)

  datatype Reply<R> = Ok(response: R) | Err(error: ApiError)
  datatype Settled<R> = Resolved(value: R) | Rejected(error: ApiError)
  datatype LogLine = ConsoleError(text: string) | ConsoleWarn(text: string)

  /** The response interceptor: the settled promise and the console lines it writes. */
  function HandleReply<R>(reply: Reply<R>): (r: (Settled<R>, seq<LogLine>))
    ensures reply.Ok? ==> r.0 == Resolved(reply.response) && r.1 == []
    ensures reply.Err? ==> r.0 == Rejected(reply.error)
    ensures reply.Err? ==> |r.1| >= 1 && r.1[0] == ConsoleError(
      if TruthyStr(reply.error.data) then reply.error.data.value else reply.error.message)
    ensures reply.Err? ==> (ConsoleWarn("Authentication required") in r.1 <==> reply.error.status == Some(401))
  {
    match reply
    case Ok(response) => (Resolved(response), [])
    case Err(e) =>
      var logged := ConsoleError(if TruthyStr(e.data) then e.data.value else e.message);
      (Rejected(e), [logged] + (if e.status == Some(401) then [ConsoleWarn("Authentication required")] else []))
  }

  /** The request-error handler rejects with the same error. */
  function HandleRequestError<R>(e: ApiError): (r: Settled<R>)
    ensures r.Rejected? && r.error == e
  {
    Rejected(e)
  }
}
