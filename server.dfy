/**
 The local server's request handlers as a class whose fields are the
 in-memory tokens and the token file.  Each handler is proved to behave as
 the matching function of module `TokenFlow` says.
 */
module Server {
  import opened OAuthTypes
  import opened QueryParams
  import opened TokenFlow

  class LocalServer {
    /** Client identity and provider endpoints, fixed at startup. */
    const credentials: Credentials
    /** The in-memory pair (ACCESS_TOKEN and REFRESH_TOKEN). */
    var accessToken: Option<string>
    var refreshToken: Option<string>
    /** The contents of the token file. */
    var store: Option<TokenRecord>

    /** The tokens this server holds, as a value. */
    function State(): Session
      reads this
    {
      Session(accessToken, refreshToken, store)
    }

    constructor (c: Credentials, initial: Session)
      ensures credentials == c && State() == initial
    {
      credentials := c;
      accessToken := initial.accessToken;
      refreshToken := initial.refreshToken;
      store := initial.store;
    }

    /** Builds the authorization URL by appending each pair to the endpoint's query. */
    method CreateServiceAuthorizationUri() returns (url: Option<Url>)
      ensures url == AuthorizationUrl(credentials)
    {
      var endpoint := credentials.authUri;
      if endpoint.None? {
        return None;
      }
      var params := DefaultAuthParams + [Param("client_id", credentials.clientId)];
      var query := endpoint.value.query;
      for i := 0 to |params|
        invariant query == endpoint.value.query + params[..i]
      {
        query := query + [params[i]];
      }
      assert params[..|params|] == params;
      url := Some(Url(endpoint.value.base, query));
    }

    /** Overwrites the in-memory pair. */
    method LoadTokens(p: TokenPair)
      modifies this`accessToken, this`refreshToken
      ensures State() == Load(old(State()), p)
    {
      accessToken := Some(p.accessToken);
      refreshToken := Some(p.refreshToken);
    }

    /** Loads the pair held in the token file, failing when it is incomplete. */
    method ReadAndLoadTokens() returns (ok: bool)
      modifies this`accessToken, this`refreshToken
      ensures ok <==> StoredPair(store).Some?
      ensures State() == if ok then Load(old(State()), StoredPair(store).value) else old(State())
    {
      if store.None? {
        return false;
      }
      var rec := store.value;
      if !IsTruthy(rec.accessToken) || !IsTruthy(rec.refreshToken) {
        return false;
      }
      LoadTokens(TokenPair(rec.accessToken.value, rec.refreshToken.value));
      ok := true;
    }

    /** Replaces the token file with `p`, when the file can be opened for writing. */
    method StoreTokens(p: TokenPair, writable: bool) returns (ok: bool)
      modifies this`store
      ensures ok == writable
      ensures State() == if ok then Store(old(State()), p) else old(State())
    {
      if !writable {
        return false;
      }
      store := Some(RecordOf(p));
      ok := true;
    }

    /** Answers `/authorize-me`. */
    method HandleAuthorizeMe() returns (r: Response)
      ensures r == AuthorizeMe(credentials)
    {
      var url := CreateServiceAuthorizationUri();
      r := if url.Some? then Redirect(ProviderUrl(url.value)) else Redirect(Undefined);
    }

    /** Answers `/auth-code-redirect`: validates the callback and exchanges its code. */
    method HandleAuthCodeRedirect(query: seq<Param>, io: Io) returns (r: Response, sent: Option<Outbound>)
      modifies this
      ensures Outcome(r, State(), sent) == AuthCodeRedirect(old(State()), credentials, query, io)
    {
      var code := Get(query, "code");
      if !IsTruthy(code) || Has(query, "error") {
        return Failed(NoAuthorizationCode), None;
      }
      var tokenUri := credentials.tokenUri;
      if tokenUri == Some(UndefinedText) || !IsTruthy(tokenUri) {
        return Failed(NoTokenUri), None;
      }
      sent := Some(TokenRequest(tokenUri.value, TokenRequestForm(credentials, code.value)));
      if io.tokenReply.None? {
        return Failed(TokenRequestFailed), sent;
      }
      var reply := io.tokenReply.value;
      if !(IsTruthy(reply.accessToken) && IsTruthy(reply.refreshToken)) {
        return Failed(TokensMissingFromReply), sent;
      }
      var p := TokenPair(reply.accessToken.value, reply.refreshToken.value);
      var stored := StoreTokens(p, io.storeWritable);
      if !stored {
        return Failed(TokenFileUnwritable), sent;
      }
      LoadTokens(p);
      r := Redirect(LocalPath(LandingPath));
    }

    /** Answers every other path: finds a pair, then calls the downstream resource. */
    method HandleUnhandledRoutes(io: Io) returns (r: Response, sent: Option<Outbound>)
      modifies this
      ensures Outcome(r, State(), sent) == UnhandledRoute(old(State()), io)
    {
      var access := accessToken;
      var refresh := refreshToken;
      if !TokensUsable(access, refresh) {
        var loaded := ReadAndLoadTokens();
        if !loaded {
          return Redirect(LocalPath(AuthorizeMePath)), None;
        }
        access := accessToken;
        refresh := refreshToken;
      }
      sent := Some(ResourceRequest(DriveFilesUri, BearerHeader(access.value)));
      r := if io.resourceOk then Ok200 else Redirect(LocalPath(AuthorizeMePath));
    }

    /** Routes a request by its path name less the leading slash. */
    method ServerCallback(req: Request, io: Io) returns (r: Response, sent: Option<Outbound>)
      modifies this
      ensures Outcome(r, State(), sent) == Serve(old(State()), credentials, req, io)
    {
      var name := StripLeadingSlash(req.pathname);
      if name == "" {
        r, sent := HandleUnhandledRoutes(io);
      } else if name == AuthorizeMeEndpoint {
        r := HandleAuthorizeMe();
        sent := None;
      } else if name == AuthCodeRedirectEndpoint {
        r, sent := HandleAuthCodeRedirect(req.query, io);
      } else {
        r, sent := HandleUnhandledRoutes(io);
      }
    }
  }

  /**
   A first run from an empty token file: `/` funnels into `/authorize-me`,
   which sends the browser to the provider; the callback's code is exchanged
   for `t`, which lands in the file; the next `/` calls the resource with
   `t`'s access token, and so does a fresh server started on the same file.
   */
  method FirstRun(c: Credentials, code: string, t: TokenPair)
    returns (first: Response, consent: Response, callback: Response, stored: Option<TokenRecord>,
             second: Response, call: Option<Outbound>, restarted: Response, restartedCall: Option<Outbound>)
    requires c.authUri.Some? && TokenUriUsable(c.tokenUri)
    requires code != "" && t.accessToken != "" && t.refreshToken != ""
    ensures first == Redirect(LocalPath(AuthorizeMePath))
    ensures consent == Redirect(ProviderUrl(AuthorizationUrl(c).value))
    ensures var q := consent.location.url.query; |q| > 0 && q[|q| - 1] == Param("client_id", c.clientId)
    ensures callback == Redirect(LocalPath(LandingPath))
    ensures stored == Some(TokenRecord(Some(t.accessToken), Some(t.refreshToken)))
    ensures second == Ok200 && restarted == Ok200
    ensures call == Some(ResourceRequest(DriveFilesUri, "Bearer " + t.accessToken))
    ensures restartedCall == call
  {
    var reply := TokenRecord(Some(t.accessToken), Some(t.refreshToken));
    var io := Io(Some(reply), true, true);
    var server := new LocalServer(c, Session(None, None, None));
    var sent;
    first, sent := server.ServerCallback(Request("/", []), io);
    consent, sent := server.ServerCallback(Request("/authorize-me", []), io);
    assert consent == AuthorizeMe(c);
    callback, sent := server.ServerCallback(Request("/auth-code-redirect", [Param("code", code)]), io);
    assert Get([Param("code", code)], "code") == Some(code);
    assert !Has([Param("code", code)], "error");
    stored := server.store;
    second, call := server.ServerCallback(Request("/", []), io);
    var rebooted := new LocalServer(c, Session(None, None, stored));
    restarted, restartedCall := rebooted.ServerCallback(Request("/", []), io);
  }
}
