/**
 The values the local OAuth 2.0 helper works with: configuration, token
 records, query parameters, the responses it writes and the requests it
 sends out.  Everything here is a value; the only mutable state lives in
 the `LocalServer` class of module `Server`.
 */
module OAuthTypes {

  datatype Option<+T> = None | Some(value: T)

  /** One `key=value` pair of a URL query, in order of appearance. */
  datatype Param = Param(key: string, value: string)

  /** A parsed URL: everything before the query, and the query as pairs. */
  datatype Url = Url(base: string, query: seq<Param>)

  /**
   The client's identity and the provider's endpoints, read once from the
   credentials file and never written.  `authUri` is `None` when the
   configured text is unset or empty (both are false in a JavaScript test);
   a non-empty endpoint is given already parsed.  `tokenUri` is the raw
   text, `None` when unset.
   */
  datatype Credentials = Credentials(
    clientId: string,
    clientSecret: string,
    authUri: Option<Url>,
    tokenUri: Option<string>)

  /** A complete access/refresh token pair. */
  datatype TokenPair = TokenPair(accessToken: string, refreshToken: string)

  /**
   A JSON object as far as the two token fields go: the body of the token
   endpoint's reply, or the contents of the token file.  A field that is
   absent is `None`.
   */
  datatype TokenRecord = TokenRecord(accessToken: Option<string>, refreshToken: Option<string>)

  /**
   The tokens the process holds: the two in-memory values (environment
   variables ACCESS_TOKEN and REFRESH_TOKEN) and the token file, `None` when
   it is missing or does not parse as a JSON object.
   */
  datatype Session = Session(
    accessToken: Option<string>,
    refreshToken: Option<string>,
    store: Option<TokenRecord>)

  /** Where a 301 points: a page of this server, the provider, or nowhere. */
  datatype Location = LocalPath(path: string) | ProviderUrl(url: Url) | Undefined

  /** Why a request handler threw; the exception is logged and swallowed. */
  datatype Error =
    | NoAuthorizationCode
    | NoTokenUri
    | TokenRequestFailed
    | TokensMissingFromReply
    | TokenFileUnwritable

  /** What the browser receives.  `Failed` is a request that got no answer. */
  datatype Response = Redirect(location: Location) | Ok200 | Failed(error: Error)

  /** The one outbound HTTP request a handler may make. */
  datatype Outbound =
    | TokenRequest(endpoint: string, form: seq<Param>)
    | ResourceRequest(uri: string, authorization: string)

  /**
   The outcomes of the I/O a request may trigger: the token endpoint's
   parsed reply (`None` when the request or the JSON parse fails), whether
   the token file can be opened for writing, and whether the downstream
   resource answered with an ok status and a JSON body.
   */
  datatype Io = Io(tokenReply: Option<TokenRecord>, storeWritable: bool, resourceOk: bool)

  /** A request as the router sees it: its path name and its query. */
  datatype Request = Request(pathname: string, query: seq<Param>)

  /** Everything a handler produces: the response, the new state, what it sent. */
  datatype Outcome = Outcome(response: Response, state: Session, sent: Option<Outbound>)

  // Endpoint names of the router.
  const AuthorizeMeEndpoint: string := "authorize-me"
  const AccessTokenRedirectEndpoint: string := "access-token-redirect"
  const AuthCodeRedirectEndpoint: string := "auth-code-redirect"

  const AuthorizeMePath: string := "/authorize-me"
  const LandingPath: string := "/anywhere"

  /** The redirect URI registered with the provider, used in both legs. */
  const RedirectUri: string := "http://127.0.0.1:3030/auth-code-redirect"
  const DriveScope: string := "https://www.googleapis.com/auth/drive"
  const DriveFilesUri: string := "https://www.googleapis.com/drive/v2/files"

  /** What an unset value reads as once copied into an environment variable. */
  const UndefinedText: string := "undefined"

  /**
   The fixed part of the authorization request, in declaration order.  It is
   a value: building a URL copies it, and nothing can change it.
   */
  const DefaultAuthParams: seq<Param> := [
    Param("redirect_uri", RedirectUri),
    Param("response_type", "code"),
    Param("scope", DriveScope),
    Param("access_type", "offline")
  ]
}
