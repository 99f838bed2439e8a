/**
 The authorization-code flow as functions of the current `Session`: how the
 authorization URL is built, which callbacks and replies are accepted, what
 the default route does with the tokens it finds, and how a request path
 is dispatched.  The methods of `Server.LocalServer` are proved to behave
 exactly as these functions say; the lemmas below state what the flow
 promises.
 */
module TokenFlow {
  import opened OAuthTypes
  import opened QueryParams

  // ---------------------------------------------------------------------
  // Guards

  /** A string-or-undefined value that JavaScript tests as true. */
  predicate IsTruthy(v: Option<string>) {
    v.Some? && v.value != ""
  }

  /** The redirect back carries a non-empty `code` and no `error` at all. */
  predicate CallbackAccepted(query: seq<Param>) {
    IsTruthy(Get(query, "code")) && !Has(query, "error")
  }

  /** The token endpoint is set and is not the text of an unset value. */
  predicate TokenUriUsable(tokenUri: Option<string>) {
    IsTruthy(tokenUri) && tokenUri.value != UndefinedText
  }

  /** The in-memory pair may be used without reloading the token file. */
  predicate TokensUsable(accessToken: Option<string>, refreshToken: Option<string>) {
    IsTruthy(accessToken) && IsTruthy(refreshToken) &&
    accessToken.value != UndefinedText && refreshToken.value != UndefinedText
  }

  /**
   The pair a token record holds when both of its fields are truthy.  The
   same test is applied to the token endpoint's reply and to the token file.
   */
  function PairOf(rec: TokenRecord): (r: Option<TokenPair>)
    ensures r.Some? <==> IsTruthy(rec.accessToken) && IsTruthy(rec.refreshToken)
    ensures r.Some? ==> RecordOf(r.value) == rec
  {
    if IsTruthy(rec.accessToken) && IsTruthy(rec.refreshToken)
    then Some(TokenPair(rec.accessToken.value, rec.refreshToken.value))
    else None
  }

  /** The record the token file holds once a pair is written to it. */
  function RecordOf(p: TokenPair): TokenRecord {
    TokenRecord(Some(p.accessToken), Some(p.refreshToken))
  }

  /** The pair the token file yields on reload, if it holds a complete one. */
  function StoredPair(store: Option<TokenRecord>): (r: Option<TokenPair>)
    ensures r.Some? <==> store.Some? && PairOf(store.value).Some?
    ensures r.Some? ==> store == Some(RecordOf(r.value))
  {
    match store
    case None => None
    case Some(rec) => PairOf(rec)
  }

  // ---------------------------------------------------------------------
  // State transitions

  /** The in-memory pair is overwritten with `p`; the token file is kept. */
  function Load(s: Session, p: TokenPair): Session {
    s.(accessToken := Some(p.accessToken), refreshToken := Some(p.refreshToken))
  }

  /** The token file is replaced by `p`; memory is kept. */
  function Store(s: Session, p: TokenPair): Session {
    s.(store := Some(RecordOf(p)))
  }

  // ---------------------------------------------------------------------
  // The authorization request

  /** The query pairs the authorization request adds, `client_id` last. */
  function AuthorizationParams(clientId: string): seq<Param> {
    DefaultAuthParams + [Param("client_id", clientId)]
  }

  /** The authorization URL, when the authorization endpoint is configured. */
  function AuthorizationUrl(c: Credentials): Option<Url> {
    match c.authUri
    case None => None
    case Some(u) => Some(u.(query := u.query + AuthorizationParams(c.clientId)))
  }

  /** What `/authorize-me` answers: a 301 to the provider, or with no location. */
  function AuthorizeMe(c: Credentials): Response {
    match AuthorizationUrl(c)
    case None => Redirect(Undefined)
    case Some(u) => Redirect(ProviderUrl(u))
  }

  // ---------------------------------------------------------------------
  // The code exchange

  /** The form posted to the token endpoint. */
  function TokenRequestForm(c: Credentials, code: string): seq<Param> {
    [ Param("client_id", c.clientId),
      Param("client_secret", c.clientSecret),
      Param("code", code),
      Param("grant_type", "authorization_code"),
      Param("redirect_uri", RedirectUri) ]
  }

  /** What `/auth-code-redirect` does with the callback query `query`. */
  function AuthCodeRedirect(s: Session, c: Credentials, query: seq<Param>, io: Io): Outcome {
    var code := Get(query, "code");
    if !IsTruthy(code) || Has(query, "error") then
      Outcome(Failed(NoAuthorizationCode), s, None)
    else if !TokenUriUsable(c.tokenUri) then
      Outcome(Failed(NoTokenUri), s, None)
    else
      var request := TokenRequest(c.tokenUri.value, TokenRequestForm(c, code.value));
      match io.tokenReply
      case None => Outcome(Failed(TokenRequestFailed), s, Some(request))
      case Some(reply) =>
        match PairOf(reply)
        case None => Outcome(Failed(TokensMissingFromReply), s, Some(request))
        case Some(p) =>
          if !io.storeWritable then Outcome(Failed(TokenFileUnwritable), s, Some(request))
          else Outcome(Redirect(LocalPath(LandingPath)), Load(Store(s, p), p), Some(request))
  }

  // ---------------------------------------------------------------------
  // The default route

  /** The `Authorization` header of section 2.1 of RFC 6750. */
  function BearerHeader(token: string): (h: string)
    ensures |h| == |token| + 7 && h[..7] == "Bearer " && h[7..] == token
  {
    "Bearer " + token
  }

  /** The downstream call made with `token`, and the answer it leads to. */
  function CallResource(s: Session, token: string, resourceOk: bool): Outcome {
    Outcome(if resourceOk then Ok200 else Redirect(LocalPath(AuthorizeMePath)),
            s,
            Some(ResourceRequest(DriveFilesUri, BearerHeader(token))))
  }

  /** What every path other than the two handled ones does. */
  function UnhandledRoute(s: Session, io: Io): Outcome {
    if TokensUsable(s.accessToken, s.refreshToken) then
      CallResource(s, s.accessToken.value, io.resourceOk)
    else
      match StoredPair(s.store)
      case None => Outcome(Redirect(LocalPath(AuthorizeMePath)), s, None)
      case Some(p) => CallResource(Load(s, p), p.accessToken, io.resourceOk)
  }

  // ---------------------------------------------------------------------
  // Dispatch

  datatype Route = DefaultRoute | AuthorizeMeRoute | AuthCodeRedirectRoute

  /** The path name less its first character, the leading slash. */
  function StripLeadingSlash(pathname: string): (r: string)
    ensures |pathname| > 0 ==> [pathname[0]] + r == pathname
    ensures |pathname| == 0 ==> r == []
  {
    if |pathname| == 0 then "" else pathname[1..]
  }

  /** The handler a stripped path name is sent to. */
  function Dispatch(name: string): Route {
    if name == AuthorizeMeEndpoint then AuthorizeMeRoute
    else if name == AuthCodeRedirectEndpoint then AuthCodeRedirectRoute
    else DefaultRoute
  }

  /** A whole request, from path name to outcome. */
  function Serve(s: Session, c: Credentials, req: Request, io: Io): Outcome {
    match Dispatch(StripLeadingSlash(req.pathname))
    case DefaultRoute => UnhandledRoute(s, io)
    case AuthorizeMeRoute => Outcome(AuthorizeMe(c), s, None)
    case AuthCodeRedirectRoute => AuthCodeRedirect(s, c, req.query, io)
  }
}
