/**
 What the authorization-code flow promises, stated over the functions of
 module `TokenFlow`.
 */
module FlowProperties {
  import opened OAuthTypes
  import opened QueryParams
  import opened TokenFlow

  // ---------------------------------------------------------------------
  // The authorization request

  /** A URL is built exactly when the authorization endpoint is configured. */
  lemma AuthorizationUrlOnlyWhenConfigured(c: Credentials)
    ensures AuthorizationUrl(c).Some? <==> c.authUri.Some?
    ensures AuthorizeMe(c) == Redirect(Undefined) <==> c.authUri.None?
    ensures c.authUri.Some? ==> AuthorizeMe(c) == Redirect(ProviderUrl(AuthorizationUrl(c).value))
  {
  }

  /**
   The URL keeps the endpoint and its query and appends five pairs, in this
   order, the fixed four first and `client_id` last.
   */
  lemma AuthorizationUrlShape(c: Credentials)
    requires c.authUri.Some?
    ensures var e, u := c.authUri.value, AuthorizationUrl(c).value;
      && u.base == e.base
      && |u.query| == |e.query| + 5
      && u.query[..|e.query|] == e.query
      && u.query[|e.query|..] == [ Param("redirect_uri", RedirectUri),
                                   Param("response_type", "code"),
                                   Param("scope", DriveScope),
                                   Param("access_type", "offline"),
                                   Param("client_id", c.clientId) ]
      && u.query[|e.query|..|e.query| + 4] == DefaultAuthParams
  {
  }

  /**
   Building the URL adds exactly one occurrence of each of the five keys to
   whatever the endpoint's own query already holds, and none of any other key.
   */
  lemma {:induction false} AuthorizationKeyCount(c: Credentials, key: string)
    requires c.authUri.Some?
    ensures var five := ["redirect_uri", "response_type", "scope", "access_type", "client_id"];
      Count(AuthorizationUrl(c).value.query, key) ==
        Count(c.authUri.value.query, key) + (if key in five then 1 else 0)
  {
    var e := c.authUri.value.query;
    var added := AuthorizationParams(c.clientId);
    CountConcat(e, added, key);
    assert added == [added[0]] + added[1..];
    assert added[1..] == [added[1]] + added[2..];
    assert added[2..] == [added[2]] + added[3..];
    assert added[3..] == [added[3]] + added[4..];
    assert added[4..] == [added[4]];
    CountConcat([added[0]], added[1..], key);
    CountConcat([added[1]], added[2..], key);
    CountConcat([added[2]], added[3..], key);
    CountConcat([added[3]], added[4..], key);
  }

  /** So each of the five keys occurs exactly once when the endpoint's query lacks it. */
  lemma AuthorizationKeyOccursOnce(c: Credentials, key: string)
    requires c.authUri.Some?
    requires key in ["redirect_uri", "response_type", "scope", "access_type", "client_id"]
    requires !Has(c.authUri.value.query, key)
    ensures Count(AuthorizationUrl(c).value.query, key) == 1
  {
    AuthorizationKeyCount(c, key);
    CountZeroIffAbsent(c.authUri.value.query, key);
  }

  // ---------------------------------------------------------------------
  // The code exchange

  /** A callback without a code, or with an error, fails first and changes nothing. */
  lemma RejectedCallbackFailsFirst(s: Session, c: Credentials, query: seq<Param>, io: Io)
    requires !CallbackAccepted(query)
    ensures AuthCodeRedirect(s, c, query, io) == Outcome(Failed(NoAuthorizationCode), s, None)
  {
  }

  /** A missing token endpoint is checked second and also contacts nobody. */
  lemma MissingTokenUriFailsSecond(s: Session, c: Credentials, query: seq<Param>, io: Io)
    requires CallbackAccepted(query) && !TokenUriUsable(c.tokenUri)
    ensures AuthCodeRedirect(s, c, query, io) == Outcome(Failed(NoTokenUri), s, None)
  {
  }

  /**
   The token endpoint is contacted exactly when both checks pass, with the
   callback's code and the same redirect URI as the authorization request.
   */
  lemma TokenEndpointContactedIffChecksPass(s: Session, c: Credentials, query: seq<Param>, io: Io)
    ensures var o := AuthCodeRedirect(s, c, query, io);
      o.sent.Some? <==> CallbackAccepted(query) && TokenUriUsable(c.tokenUri)
    ensures var o := AuthCodeRedirect(s, c, query, io);
      o.sent.Some? ==>
        && Get(query, "code").Some?
        && o.sent == Some(TokenRequest(c.tokenUri.value, TokenRequestForm(c, Get(query, "code").value)))
        && o.sent.value.form[4] == AuthorizationParams(c.clientId)[0]
  {
  }

  /** A reply lacking either token fails and leaves memory and file alone. */
  lemma IncompleteReplyChangesNothing(s: Session, c: Credentials, query: seq<Param>, io: Io)
    requires CallbackAccepted(query) && TokenUriUsable(c.tokenUri)
    requires io.tokenReply.Some?
    requires !IsTruthy(io.tokenReply.value.accessToken) || !IsTruthy(io.tokenReply.value.refreshToken)
    ensures var o := AuthCodeRedirect(s, c, query, io);
      o.response == Failed(TokensMissingFromReply) && o.state == s
  {
  }

  /**
   The exchange succeeds exactly when every check passes and the file can
   be written; then the file holds exactly the returned pair, memory holds
   it too, and the browser is sent to the landing page.
   */
  lemma ExchangeSucceedsIff(s: Session, c: Credentials, query: seq<Param>, io: Io)
    ensures var o := AuthCodeRedirect(s, c, query, io);
      o.response == Redirect(LocalPath(LandingPath)) <==>
        && CallbackAccepted(query) && TokenUriUsable(c.tokenUri)
        && io.tokenReply.Some? && PairOf(io.tokenReply.value).Some?
        && io.storeWritable
    ensures var o := AuthCodeRedirect(s, c, query, io);
      o.response == Redirect(LocalPath(LandingPath)) ==>
        && o.state.store == io.tokenReply
        && o.state.accessToken == io.tokenReply.value.accessToken
        && o.state.refreshToken == io.tokenReply.value.refreshToken
  {
  }

  /** An exchange either fails with nothing changed or updates file and memory together. */
  lemma ExchangeAllOrNothing(s: Session, c: Credentials, query: seq<Param>, io: Io)
    ensures var o := AuthCodeRedirect(s, c, query, io);
      || (o.response.Failed? && o.state == s)
      || (o.response == Redirect(LocalPath(LandingPath)) &&
          exists p :: o.state == Load(Store(s, p), p) && Some(RecordOf(p)) == io.tokenReply)
  {
    var o := AuthCodeRedirect(s, c, query, io);
    if !o.response.Failed? {
      var p := PairOf(io.tokenReply.value).value;
      assert o.state == Load(Store(s, p), p);
    }
  }

  // ---------------------------------------------------------------------
  // The token file

  /** Storing a pair of non-empty tokens and reloading it yields the same pair. */
  lemma StoreThenReloadRoundTrip(s: Session, p: TokenPair)
    requires p.accessToken != "" && p.refreshToken != ""
    ensures StoredPair(Store(s, p).store) == Some(p)
  {
  }

  /** An empty token of the pair breaks the round trip: the reload fails. */
  lemma StoreEmptyTokenThenReloadFails(s: Session, p: TokenPair)
    requires p.accessToken == "" || p.refreshToken == ""
    ensures StoredPair(Store(s, p).store).None?
  {
  }

  // ---------------------------------------------------------------------
  // The default route

  /**
   Usable memory is used as it is, with no reload and no change.  Unusable
   memory triggers a reload: a failed reload redirects to `/authorize-me`
   without calling the resource, a successful one loads the stored pair and
   calls the resource with it.
   */
  lemma ReloadIffMemoryUnusable(s: Session, io: Io)
    ensures var o := UnhandledRoute(s, io);
      TokensUsable(s.accessToken, s.refreshToken) ==>
        o.state == s && o.sent == Some(ResourceRequest(DriveFilesUri, BearerHeader(s.accessToken.value)))
    ensures var o := UnhandledRoute(s, io);
      !TokensUsable(s.accessToken, s.refreshToken) && StoredPair(s.store).Some? ==>
        var p := StoredPair(s.store).value;
        o.state == Load(s, p) && o.sent == Some(ResourceRequest(DriveFilesUri, BearerHeader(p.accessToken)))
    ensures var o := UnhandledRoute(s, io);
      o.sent.None? <==> !TokensUsable(s.accessToken, s.refreshToken) && StoredPair(s.store).None?
    ensures var o := UnhandledRoute(s, io);
      o.sent.None? ==> o == Outcome(Redirect(LocalPath(AuthorizeMePath)), s, None)
  {
  }

  /**
   The default route answers 200 exactly when a pair was found and the
   resource answered; otherwise it redirects to `/authorize-me`.  It never
   touches the file and never clears memory: after a call the
   access token it sent is still held.
   */
  lemma UnhandledRouteOutcome(s: Session, io: Io)
    ensures var o := UnhandledRoute(s, io);
      o.response == Ok200 <==>
        (TokensUsable(s.accessToken, s.refreshToken) || StoredPair(s.store).Some?) && io.resourceOk
    ensures var o := UnhandledRoute(s, io);
      o.response != Ok200 ==> o.response == Redirect(LocalPath(AuthorizeMePath))
    ensures var o := UnhandledRoute(s, io);
      o.state.store == s.store
    ensures var o := UnhandledRoute(s, io);
      o.sent.Some? ==>
        && IsTruthy(o.state.accessToken) && IsTruthy(o.state.refreshToken)
        && o.sent == Some(ResourceRequest(DriveFilesUri, BearerHeader(o.state.accessToken.value)))
  {
  }

  // ---------------------------------------------------------------------
  // Dispatch

  /**
   A request is routed by its path name less the leading slash: only
   `authorize-me` and `auth-code-redirect` are special, and every other name,
   the empty one and the unrouted `access-token-redirect` included, takes the
   default route.
   */
  lemma ServeByPath(s: Session, c: Credentials, name: string, query: seq<Param>, io: Io)
    ensures Serve(s, c, Request("/" + name, query), io) ==
      if name == "authorize-me" then Outcome(AuthorizeMe(c), s, None)
      else if name == "auth-code-redirect" then AuthCodeRedirect(s, c, query, io)
      else UnhandledRoute(s, io)
    ensures Serve(s, c, Request("/" + AccessTokenRedirectEndpoint, query), io) == UnhandledRoute(s, io)
  {
    assert StripLeadingSlash("/" + name) == name;
    assert StripLeadingSlash("/" + AccessTokenRedirectEndpoint) == AccessTokenRedirectEndpoint;
  }

  /**
   Only the code exchange writes the token file, and it writes the reply
   wholesale: the file never ends up mixing tokens of two replies.
   */
  lemma OnlyExchangeWritesTheFile(s: Session, c: Credentials, req: Request, io: Io)
    ensures var o := Serve(s, c, req, io);
      o.state.store == s.store ||
      (Dispatch(StripLeadingSlash(req.pathname)) == AuthCodeRedirectRoute && o.state.store == io.tokenReply)
  {
  }
}
