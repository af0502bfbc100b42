# bookstore-oauth-go authenticator, modelled in Dafny

The `oauth` package of bookstore-oauth-go lets a service handler find out
who is calling. An inbound request carries an opaque token id in its
`token` query parameter. `AuthenticateRequest` first deletes any
`X-Caller-Id` and `X-Client-Id` headers the caller sent. It then trims the
token id and, if it is not empty, asks the token service
(`GET /oauth/token/{id}`) for the token record. For a resolved token the
code adds the token's user id under both trust headers, `X-Caller-Id` and
`X-Client-Id`; the client id is never written (see Findings). A token the service does not know (404)
leaves the request anonymous. Any other error is returned. Downstream code
reads the headers back with `GetCallerId`, `GetClientId` and `IsPublic`.

Modules, one per concern:

- `Wrappers` (wrappers.dfy): `Option` and `Result`.
- `Strconv` (strconv.dfy): Go's `strconv.ParseInt(s, 10, 64)` and the
  decimal rendering `fmt.Sprintf("%v", n)` of an int64. `ParseInt64` is
  specified against a reference meaning of decimal literals
  (`IsDecimalLiteral`, `LiteralValue`). Its digit loop (`ScanDigits`)
  follows Go's `ParseUint`: a non-digit is a syntax error, and the first
  digit that leaves the uint64 range is a range error.
- `Strings` (strings.dfy): Go's `strings.TrimSpace`, over Go's
  `unicode.IsSpace` set.
- `HttpHeader` (http_header.dfy): the header map, `Header.Get`, and the
  class `Request` whose `Del` and `Add` change its header map in place.
  A Go nil request is `null`.
- `OAuth` (oauth.dfy): the constants, the token and error records, the
  accessors, `GetAccessToken`, and the methods `CleanRequest` and
  `AuthenticateRequest`. `Authenticate` is the value-level specification
  of what `AuthenticateRequest` leaves in the header map and returns.
- `OAuthProperties` (oauth_properties.dfy): the properties that callers
  rely on, proved about `Authenticate`.

Inputs that stand for I/O: `AuthenticateRequest` takes the raw `token`
query value (`tokenQuery`) and the resolver (`resolve`, a function from a
token id to a token or an error). `RemoteResolver` builds the resolver
that `oauth.go` uses: the GET (`fetch`, a function from the token id to an
`HttpOutcome`) followed by `GetAccessToken`. The two JSON decoders are
function parameters that return `None` when decoding fails.

Where the code and the package's tests disagree, the model follows the
code:

- The header-setting test at `oauth/oauth_test.go:259` expects the client
  header to hold the token's client id. `oauth/oauth.go:87` fills it from
  the user id. This is listed under Findings.
- The error messages are those of `oauth/oauth.go:105`, `:111` and `:120`.
  The tests at `oauth/oauth_test.go:156` expect other wording, and they
  call an `oauthServer.getAccessToken` that `oauth.go` does not have.

The not-found branch at `oauth/oauth.go:80-82` fails open: an unknown or expired
token is treated exactly like no token (`NotFoundIsAnonymous`).

## Model

| member | source | states |
|---|---|---|
| Strconv.ScanDigitsMeaning | oauth/oauth.go:39 | started on a digit prefix and its value, the base-10 digit loop accepts exactly the all-digit strings whose value fits in uint64, returns that value, and reports a range error for all-digit strings that are too large |
| Strconv.PrefixValueAtMost | oauth/oauth.go:39 | a prefix of a digit string never denotes more than the whole string |
| Strconv.ParseUint64 | oauth/oauth.go:39 | unsigned base-10 parse: succeeds exactly on a non-empty all-digit string within uint64, with its decimal value; empty input is a syntax error, too large a number a range error |
| Strconv.ParseInt64 | oauth/oauth.go:39 | `ParseInt(s, 10, 64)` succeeds exactly on an optional sign followed by one or more digits whose value lies in int64, and returns that value; a well-formed literal out of range is a range error; a missing digit part is a syntax error |
| Strconv.FormatUint | oauth/oauth.go:86 | renders a natural number as a non-empty digit string that denotes it, with no leading zero except that 0 is exactly "0" |
| Strconv.FormatInt | oauth/oauth.go:86-87 | `%v` of an int64 is a decimal literal that denotes the same number, never starts with `+`, starts with `-` exactly for negatives, and has no leading zero after the sign unless the digits are exactly "0" |
| Strconv.ParseFormatRoundTrip | oauth/oauth.go:86-87 | parsing the rendering of any int64 gives back that int64 |
| Strings.FirstNonSpace | oauth/oauth.go:73 | the trimmed part starts at the first non-space from the given position: everything skipped is white space, and what it stops at is not |
| Strings.EndOfNonSpace | oauth/oauth.go:73 | the trimmed part ends just after the last non-space of the range: everything cut off is white space, and the last character kept is not |
| Strings.TrimSpace | oauth/oauth.go:73 | the result is the infix of the input framed by white space only, with non-space ends; it is empty exactly when the input is all white space |
| Strings.TrimSpaceIdempotent | oauth/oauth.go:73 | trimming a trimmed token id changes nothing |
| HttpHeader.Get | oauth/oauth.go:39 | `Header.Get` gives the first value stored under the key when there is one; a non-empty result is always that first value |
| HttpHeader.Request.Del | oauth/oauth.go:97-98 | `Header.Del` removes the key and every value under it; the other keys stay as they were |
| HttpHeader.Request.Add | oauth/oauth.go:86-87 | `Header.Add` appends one value to the key's list, creating it when absent; the other keys stay as they were |
| OAuth.HeaderId | oauth/oauth.go:39-43 | reading an id header gives the value of its first entry when that is an int64 literal, and 0 otherwise (missing header, empty value, malformed, out of range) |
| OAuth.GetCallerId | oauth/oauth.go:34-44 | 0 for a nil request; otherwise the int64 value of the first `X-Caller-Id` value when it parses, else 0 |
| OAuth.GetClientId | oauth/oauth.go:46-56 | 0 for a nil request; otherwise the int64 value of the first `X-Client-Id` value when it parses, else 0 |
| OAuth.IsPublic | oauth/oauth.go:58-64 | true for a nil request; otherwise true exactly when the first `X-Public` value is the literal "true" |
| OAuth.GetAccessToken | oauth/oauth.go:101-124 | transport failure gives internal error "restclient error"; status above 299 gives the decoded service error verbatim, or internal error "invalid error interface when trying to get token"; otherwise the decoded token, or internal error "error when trying to unmarshal token response"; a token comes only from such a status and body, and every error that is not an internal server error is the service's own decoded error |
| OAuth.RemoteResolver | oauth/oauth.go:78 | the resolver `AuthenticateRequest` calls is the GET followed by `getAccessToken`: a transport failure resolves to "restclient error"; a token only comes from a status up to 299 whose body decodes to it; a not-found only from an error status whose body decodes to that error |
| OAuth.Cleaned | oauth/oauth.go:92-99 | after cleaning, neither trust header is present and every other header key and its values are as before |
| OAuth.Stamp | oauth/oauth.go:86-87 | the two `Add` calls as written: each trust header gets one more value, both the rendering of the user id, other headers kept; on a cleaned map both read back as the user id |
| OAuth.StampIntended | oauth/oauth.go:86-87 | the two `Add` calls with the client id in the client header: on a cleaned map the caller header reads back as the user id and the client header as the client id; other headers kept |
| OAuth.AuthenticateIntended | oauth/oauth.go:66-90 | authentication with the intended stamping keeps every non-trust header, and a returned error is never a not-found and leaves no trust header |
| OAuth.Authenticate | oauth/oauth.go:66-90 | authentication keeps every non-trust header; afterwards the trust headers are either both absent or both hold exactly one value; a returned error is never a not-found and leaves no trust header |
| OAuth.CleanRequest | oauth/oauth.go:92-99 | on a non-nil request the header map becomes its cleaned form; a nil request is left alone |
| OAuth.AuthenticateRequest | oauth/oauth.go:66-90 | a nil request gives no error and no effect; otherwise the new header map and the returned error are those `Authenticate` gives for the old header map |
| OAuthProperties.BlankTokenIsAnonymous | oauth/oauth.go:71-76 | an empty or whitespace-only token gives no error and leaves the cleaned header map, with neither trust header, whatever arrived |
| OAuthProperties.NotFoundIsAnonymous | oauth/oauth.go:78-82 | a resolver failure with status 404 gives no error and leaves the cleaned header map |
| OAuthProperties.OtherErrorsPassThrough | oauth/oauth.go:78-84 | a resolver failure with any other status is returned unchanged and leaves the cleaned header map |
| OAuthProperties.TrustHeadersOnlyFromResolution | oauth/oauth.go:71-87 | a trust header is present afterwards only if the trimmed token was non-empty and resolved, and then no error is returned |
| OAuthProperties.ResolvedStampsOneValueEach | oauth/oauth.go:86-87 | a resolved token gives no error and exactly one value in each trust header, both the rendering of the user id |
| OAuthProperties.ResolvedCallerIdReadsBack | oauth/oauth.go:86 | after a resolved authentication the caller id read back equals the token's user id |
| OAuthProperties.ClientHeaderCarriesUserId | oauth/oauth.go:87 | after a resolved authentication the client id read back equals the token's user id, not its client id |
| OAuthProperties.TestTokenClientHeaderMismatch | oauth/oauth.go:87 | for the test token (user 123, client 12) the client header reads back as 123, not 12 |
| OAuthProperties.StampIntendedReadsBack | oauth/oauth.go:86-87 | with the client id written into the client header, the caller and client headers hold one value each and read back as the user id and the client id |
| OAuthProperties.IntendedAuthenticationReadsBack | oauth/oauth.go:66-90 | with the intended stamping, a resolved authentication returns no error and reads back the user id as caller and the client id as client; every other case is as in the code as written |
| OAuthProperties.CleanedUndoesStamp | oauth/oauth.go:86-98 | cleaning a stamped, cleaned header map gives the cleaned map again, and cleaning twice is cleaning once |
| OAuthProperties.AuthenticateSeesOnlyCleaned | oauth/oauth.go:71 | two header maps that agree once cleaned authenticate to the same header map and error: inbound trust headers cannot influence the outcome |
| OAuthProperties.AuthenticateIdempotent | oauth/oauth.go:71-87 | authenticating a second time with the same token value and resolver leaves the same header map and the same error |
| OAuthProperties.AuthenticateTwice | oauth/oauth.go:66-90 | two `AuthenticateRequest` calls on one request leave the header map of one call and return the same error |
| OAuthProperties.TransportFailureIsInternalError | oauth/oauth.go:102-105 | when the GET fails at the transport level, authentication returns internal error "restclient error" and leaves no trust header |
| OAuthProperties.ForgedCallerIdIsCleared | oauth/oauth.go:71-76 | a request arriving with `X-Caller-Id: 999` and no token reads back caller id 0 |
| OAuthProperties.HeaderIdExamples | oauth/oauth.go:39-55 | under either id header, "15" reads as 15; "asdaf1124" and a missing header read as 0 |

## Findings

| source | as written | input that shows it | evidently intended | confidence | as-written member | corrected member |
|---|---|---|---|---|---|---|
| oauth/oauth.go:87 | `X-Client-Id` is filled with `token.UserId` | a token with user id 123 and client id 12: `GetClientId` reads 123 | `X-Client-Id` holds `token.ClientId`, as the header-setting test at oauth/oauth_test.go:259 expects ("12") | high; not executed | OAuthProperties.TestTokenClientHeaderMismatch | OAuthProperties.StampIntendedReadsBack |

`AuthenticateRequest` and `Authenticate` keep the code as written, so that
the model describes what the package does today. `StampIntended` is the
corrected stamping, and `AuthenticateIntended` the corrected
authentication; `IntendedAuthenticationReadsBack` proves that it reads back
both ids correctly and otherwise agrees with the code as written.

The method `OAuthProperties.AccessorsOnRequests` replays the accessor
examples of `oauth/oauth_test.go:36-146` on `Request` objects (nil request,
no header, `X-Public: true`, `X-Caller-Id` and `X-Client-Id` set to "15"
and to "asdaf1124").

## Left out

- The HTTP client: resty, `net/http`, the 200 ms timeout, the base URL and the process-wide client (oauth/oauth.go:22-26). The GET is the `fetch` parameter of `RemoteResolver`; a timeout is one kind of `TransportFailure`.
- The `fmt.Println` of a transport error (oauth/oauth.go:104): logging only.
- JSON decoding (`json.Unmarshal`, oauth/oauth.go:110 and 118): the decoders are parameters returning `None` on failure, since the library's behaviour is not part of this model.
- URL query parsing (`req.URL.Query().Get`, oauth/oauth.go:73): the raw `token` value is the `tokenQuery` input, "" when absent.
- Header-name canonicalisation by `Header.Get`, `Del` and `Add`: keys are compared exactly; the three header names are already canonical.
- A non-nil request with a nil header map: reads and `Del` treat it as empty, which the model's empty map matches, but Go's `Add` panics on a nil map; the model's requests always carry a map, so that panic is not modelled.
- A non-nil request without a URL: `req.URL.Query()` at oauth/oauth.go:73 then dereferences nil and panics, after both trust headers have been deleted; the model takes the token query value as an input and always returns normally.
- Sharing of a header map: in Go, shallow copies of a request share one `http.Header`, so a change through one is seen through the other; each model `Request` holds its own map value, so that aliasing is not captured.
- The `errors` package is not part of this model: `InternalServerError` assumes status 500, error code "internal_server_error" and no causes.
- Strings are sequences of Unicode code points: Go strings are bytes, and what `TrimSpace` does with invalid UTF-8 is not modelled.
- Strconv.ParseInt64: returns only the error kind on failure, not the clamped number and the `NumError` fields Go also returns, because the accessors discard them.
- Concurrency: each authentication is independent and shares no mutable state besides the HTTP client, which is left out.
- Test scaffolding (httpmock, `TestMain`, `mockOAuthServer`, oauth/oauth_test.go:14-27 and 268-274): it targets an API that `oauth.go` does not have.
