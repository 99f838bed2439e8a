# OAuth 2.0 authorization-code helper: the token lifecycle of `LocalServer`

This project models the core of a small local Node.js server that runs the
OAuth 2.0 authorization-code flow against Google's identity provider for one
user, keeps the resulting access/refresh token pair in its process
environment and in a `tokens.json` file, and uses the access token to call
the Google Drive files API.

The model has five parts:

- `OAuthTypes` (types.dfy): configuration, token pairs and records, query pairs,
  responses, outbound requests and the fixed constants of the source. These
  include the redirect URI, the Drive scope, the default authorization
  parameters and the endpoint names.
- `QueryParams` (query.dfy): `has` and `get` on a query split into key/value
  pairs. It also counts how often a key occurs.
- `TokenFlow` (flow.dfy): each handler as a function of the current `Session`.
  A `Session` is the in-memory pair plus the token file. The module also has the
  guards of the source (JavaScript truthiness, the `'undefined'` sentinel) and
  the dispatch on the path name.
- `FlowProperties` (properties.dfy): lemmas that state what the flow promises.
- `Server` (server.dfy): the class `LocalServer`. Its fields are the in-memory
  access and refresh tokens and the token file. Its methods mirror the
  source's methods step by step, and each is proved to agree with its
  `TokenFlow` function. `FirstRun` is a client that runs the whole first-use
  scenario on a fresh server, and then on a restarted one.

What the source does with I/O is given to the model as input. The record
`Io` holds the token endpoint's parsed reply (`None` when `fetch` or the JSON
parse throws), whether the token file can be opened for writing, and whether
the Drive API answered with an ok status and a JSON body. The handlers return
the outbound request they make as a value (`Outbound`: the token POST of
section 4.1.3 of RFC 6749, or the Drive GET with an `Authorization: Bearer`
header of section 2.1 of RFC 6750). So "the token endpoint is not contacted"
is a statement about that value. A handler that throws is `Failed(error)`.
The exception is caught and logged at app.js:221-223, and no response is
written.

The code is looser than the textbook flow in four places, and the model follows the code:

- A downstream failure does not clear the in-memory tokens. It only redirects
  to `/authorize-me`.
- The exchange fails when the reply lacks either token, not only when it lacks
  both.
- The authorization URL is withheld only when the endpoint is unset or empty.
  An empty client id is still appended.
- The token endpoint's HTTP status is never checked. Any body that parses is
  used.

## Model

| member | source | states |
|---|---|---|
| QueryParams.Get | app.js:108 | the value returned is that of the first pair with the key, and there is one exactly when some pair carries the key (`searchParams.get`) |
| QueryParams.Has | app.js:110 | definition: whether some pair of the query carries the key (`searchParams.has`) |
| TokenFlow.IsTruthy | app.js:58 | definition: a string-or-undefined value JavaScript tests as true, that is defined and non-empty (also the tests at app.js:110, 132, 149) |
| TokenFlow.CallbackAccepted | app.js:110 | definition: the callback carries a truthy first `code` and no `error` pair at all |
| TokenFlow.TokenUriUsable | app.js:113 | definition: the token endpoint is truthy and is not the text `'undefined'` |
| TokenFlow.TokensUsable | app.js:149 | definition: both in-memory tokens are truthy and neither is the text `'undefined'` |
| TokenFlow.AuthorizationUrl | app.js:29-46 | definition: no URL without an endpoint, otherwise the endpoint with the four defaults and then `client_id` appended to its query |
| TokenFlow.TokenRequestForm | app.js:118-124 | definition: the form posted to the token endpoint, `client_id`, `client_secret`, `code`, `grant_type=authorization_code`, `redirect_uri` in that order |
| TokenFlow.AuthCodeRedirect | app.js:103-143 | definition: the code check, then the token-endpoint check, then the POST, the either-token check, the file write and the load, each failure ending the request with the state unchanged |
| TokenFlow.UnhandledRoute | app.js:145-183 | definition: use usable memory or reload the file, redirect to `/authorize-me` when neither yields a pair, otherwise call Drive with the Bearer header and answer 200 or redirect |
| TokenFlow.Dispatch | app.js:203-218 | definition: `authorize-me` and `auth-code-redirect` select their handlers, every other name the default route |
| TokenFlow.Serve | app.js:190-224 | definition: a request is dispatched on its path name less the leading slash to the matching handler function |
| TokenFlow.PairOf | app.js:130-134 | a record yields a pair exactly when both tokens are truthy, and the pair written back is the record itself |
| TokenFlow.StoredPair | app.js:53-60 | the token file yields a pair exactly when it exists and holds both tokens truthy, and then it holds exactly that pair |
| TokenFlow.BearerHeader | app.js:165 | the header is `Bearer ` followed by exactly the token |
| TokenFlow.StripLeadingSlash | app.js:199 | the route name is the path name less its first character, and empty for an empty path name |
| Server.LocalServer.constructor | app.js:236-249 | the server starts with the given credentials and the given memory and token file |
| Server.LocalServer.CreateServiceAuthorizationUri | app.js:29-46 | the loop appends the copied default pairs and then `client_id` to the endpoint's query, giving `AuthorizationUrl`; there is no URL without an endpoint |
| Server.LocalServer.LoadTokens | app.js:48-51 | memory becomes exactly the given pair and the token file is untouched |
| Server.LocalServer.ReadAndLoadTokens | app.js:53-64 | succeeds iff the file holds a complete pair; then memory is that pair, otherwise memory is unchanged; the file is never changed |
| Server.LocalServer.StoreTokens | app.js:66-71 | when the file can be opened it is replaced wholesale by the pair, otherwise nothing changes; memory is untouched |
| Server.LocalServer.HandleAuthorizeMe | app.js:90-95 | answers a 301 to the authorization URL, or a 301 with no location when the endpoint is not configured |
| Server.LocalServer.HandleAuthCodeRedirect | app.js:103-143 | response, new state and the request sent are those of `AuthCodeRedirect` on the old state |
| Server.LocalServer.HandleUnhandledRoutes | app.js:145-183 | response, new state and the request sent are those of `UnhandledRoute` on the old state |
| Server.LocalServer.ServerCallback | app.js:190-224 | response, new state and request sent are those of `Serve`: dispatch on the path name less its slash |
| Server.FirstRun | app.js:90-183 | from an empty file: `/` redirects to `/authorize-me`, that redirects to the provider with `client_id` last, the callback stores exactly the returned pair and lands on `/anywhere`, and the next `/` (also on a restarted server reading the same file) answers 200 after calling Drive with `Bearer` and the access token |
| FlowProperties.AuthorizationUrlOnlyWhenConfigured | app.js:30-34 | a URL exists iff the endpoint is configured; otherwise `/authorize-me` answers with an undefined location |
| FlowProperties.AuthorizationUrlShape | app.js:36-45 | the URL keeps the endpoint's base and query and appends exactly `redirect_uri`, `response_type=code`, `scope`, `access_type=offline`, `client_id` in that order, the first four being the unchanged defaults |
| FlowProperties.AuthorizationKeyCount | app.js:37-43 | for every endpoint, building the URL adds exactly one occurrence of each of the five keys and none of any other key |
| FlowProperties.AuthorizationKeyOccursOnce | app.js:17-22 | so each of the five keys occurs exactly once when the endpoint's own query lacks it |
| FlowProperties.RejectedCallbackFailsFirst | app.js:110-112 | a callback without a truthy `code` or with any `error` fails before anything else, contacts nobody and changes nothing |
| FlowProperties.MissingTokenUriFailsSecond | app.js:113-115 | an accepted callback with an unset, empty or `'undefined'` token endpoint fails, contacts nobody and changes nothing |
| FlowProperties.TokenEndpointContactedIffChecksPass | app.js:118-129 | the token endpoint is contacted iff both checks pass, with the callback's first `code` and the same redirect URI as the authorization request |
| FlowProperties.IncompleteReplyChangesNothing | app.js:130-134 | a reply lacking either token fails and leaves memory and file unchanged |
| FlowProperties.ExchangeSucceedsIff | app.js:136-142 | the exchange lands on `/anywhere` iff every check passes and the file is writable; then file and memory hold exactly the returned pair |
| FlowProperties.ExchangeAllOrNothing | app.js:132-142 | an exchange either fails with nothing changed or updates file and memory with the same pair |
| FlowProperties.StoreThenReloadRoundTrip | app.js:56-70 | storing a pair of non-empty tokens and reloading the file yields the same pair |
| FlowProperties.StoreEmptyTokenThenReloadFails | app.js:58-70 | a stored pair with an empty token is refused on reload |
| FlowProperties.ReloadIffMemoryUnusable | app.js:146-159 | usable memory (both truthy, neither `'undefined'`) is used as it is with no change; otherwise the file is reloaded into memory and its access token used; Drive is not called exactly when memory is unusable and the reload fails, and then the answer is a 301 to `/authorize-me` with nothing changed |
| FlowProperties.UnhandledRouteOutcome | app.js:162-182 | 200 iff a pair was found and Drive answered ok, otherwise a 301 to `/authorize-me`; the file is untouched and the token sent stays in memory whatever the answer |
| FlowProperties.ServeByPath | app.js:199-218 | a request for `/name` goes to the handler `name` selects when it is `authorize-me` or `auth-code-redirect`; every other name, the empty one and the unrouted `access-token-redirect` included, takes the default route |
| FlowProperties.OnlyExchangeWritesTheFile | app.js:138 | only the code exchange writes the token file, and it writes the reply wholesale |

## Left out

- The HTTP server, `listen`, the host and port, and `res.writeHead`/`res.end` (app.js:226-232). A response is a value.
- Node's header validation at app.js:91-93. Node's `writeHead` rejects an undefined header value with `ERR_HTTP_INVALID_HEADER_VALUE`. So when no endpoint is configured, `/authorize-me` throws at run time, the error is logged at app.js:221-223, and no response is written. The model keeps the 301 with no location that the code asks for, as `AuthorizeMe` and `AuthorizationUrlOnlyWhenConfigured` state.
- The `fetch` calls (app.js:125-129, app.js:163-166). Their outcomes are the `Io` inputs. The form's percent-encoding is not modelled: the form is the list of pairs.
- File handles and JSON (app.js:53-56, app.js:66-70). The token file is an optional record and a parse failure is a missing file. `storeTokens` neither awaits `writeFile` nor waits before `close`. The model treats the write as done once the file opens. A handle left open after a failed reload is not modelled.
- Reading `cred.json` and process exit (app.js:236-260). The credentials are a constructor parameter.
- URL parsing (app.js:36, app.js:198). A configured authorization endpoint, the callback query and the path name are given already parsed. An endpoint text that `new URL` would reject is not modelled. An unset and an empty endpoint are the same `None`, because the test at app.js:32 treats them alike.
- Concurrency: `handleUnhandledRoutes` is not awaited (app.js:205, app.js:217) and all requests share `process.env`. The model runs each request to completion, one at a time.
- Logging (`console.log`, `console.error`).
- The coercion of an unset value to the text `'undefined'` when it is stored in `process.env`. Only the comparisons with that text (app.js:113, app.js:149) are modelled.
- The refresh-token grant. The source stores the refresh token but never uses it.
