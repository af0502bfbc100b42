/**
 * The request-authentication core: trust-header accessors, the mapping of
 * the token service's HTTP answer to a token or an error, and the in-place
 * rewriting of a request's trust headers.
 */
module OAuth {
  import opened Wrappers
  import opened Strconv
  import opened Strings
  import opened HttpHeader

  const HeaderXPublic: string := "X-Public"
  const HeaderXClientId: string := "X-Client-Id"
  const HeaderXCallerId: string := "X-Caller-Id"

  /** Name of the query parameter carrying the token id (its value is an input here). */
  const ParamToken: string := "token"

  const StatusNotFound: int := 404
  const StatusInternalServerError: int := 500

  const MsgRestClient: string := "restclient error"
  const MsgInvalidErrorInterface: string := "invalid error interface when trying to get token"
  const MsgUnmarshalToken: string := "error when trying to unmarshal token response"

  /** The token record the token service returns. */
  datatype Token = Token(id: string, userId: int64, clientId: int64)

  /** A REST error: what the token service reports, or what the resolver makes up itself. */
  datatype RestErr = RestErr(message: string, statusCode: int, error: string, causes: seq<string>)

  /** `errors.NewInternalServerError`. */
  function InternalServerError(message: string): RestErr
  {
    RestErr(message, StatusInternalServerError, "internal_server_error", [])
  }

  /** An int64 trust header as the accessors read it: its first value parsed, or 0 when that fails. */
  function HeaderId(h: Header, key: string): (id: int64)
    ensures IsInt64Literal(Get(h, key)) ==> id as int == LiteralValue(Get(h, key))
    ensures !IsInt64Literal(Get(h, key)) ==> id == 0
  {
    match ParseInt64(Get(h, key))
    case Ok(v) => v
    case Err(_) => 0
  }

  /** `GetCallerId`: the caller id stamped on the request, 0 when there is none that parses. */
  function GetCallerId(req: Request?): (id: int64)
    reads req
    ensures req == null ==> id == 0
    ensures req != null && IsInt64Literal(Get(req.header, HeaderXCallerId)) ==>
      id as int == LiteralValue(Get(req.header, HeaderXCallerId))
    ensures req != null && !IsInt64Literal(Get(req.header, HeaderXCallerId)) ==> id == 0
  {
    if req == null then 0 else HeaderId(req.header, HeaderXCallerId)
  }

  /** `GetClientId`: the client id stamped on the request, 0 when there is none that parses. */
  function GetClientId(req: Request?): (id: int64)
    reads req
    ensures req == null ==> id == 0
    ensures req != null && IsInt64Literal(Get(req.header, HeaderXClientId)) ==>
      id as int == LiteralValue(Get(req.header, HeaderXClientId))
    ensures req != null && !IsInt64Literal(Get(req.header, HeaderXClientId)) ==> id == 0
  {
    if req == null then 0 else HeaderId(req.header, HeaderXClientId)
  }

  /** `IsPublic`: a missing request counts as public; otherwise only a first `X-Public` value of exactly "true". */
  function IsPublic(req: Request?): (public: bool)
    reads req
    ensures req == null ==> public
    ensures req != null ==>
      (public <==> HeaderXPublic in req.header && |req.header[HeaderXPublic]| > 0
                   && req.header[HeaderXPublic][0] == "true")
  {
    req == null || Get(req.header, HeaderXPublic) == "true"
  }

  type Bytes = seq<bv8>

  /** What the GET to `/oauth/token/{id}` produced. */
  datatype HttpOutcome = TransportFailure | Response(statusCode: int, body: Bytes)

  /** Token resolution as the authenticator sees it: a token id to a token or an error. */
  type Resolver = string -> Result<Token, RestErr>

  /**
   * `getAccessToken` after the GET: `decodeRestErr` and `decodeToken` stand
   * for `json.Unmarshal` into an error and into a token, `None` when it fails.
   */
  function GetAccessToken(outcome: HttpOutcome, decodeRestErr: Bytes -> Option<RestErr>,
                          decodeToken: Bytes -> Option<Token>): (r: Result<Token, RestErr>)
    ensures outcome.TransportFailure? ==> r == Err(InternalServerError(MsgRestClient))
    ensures outcome.Response? && outcome.statusCode > 299 && decodeRestErr(outcome.body).None? ==>
      r == Err(InternalServerError(MsgInvalidErrorInterface))
    ensures outcome.Response? && outcome.statusCode <= 299 && decodeToken(outcome.body).None? ==>
      r == Err(InternalServerError(MsgUnmarshalToken))
    // a token comes only from a non-error status whose body decodes to it
    ensures r.Ok? <==> outcome.Response? && outcome.statusCode <= 299 && decodeToken(outcome.body).Some?
    ensures r.Ok? ==> Some(r.value) == decodeToken(outcome.body)
    // an error status whose body decodes is passed on verbatim, status and causes included
    ensures outcome.Response? && outcome.statusCode > 299 && decodeRestErr(outcome.body).Some? ==>
      r == Err(decodeRestErr(outcome.body).value)
    // every error not made up here is the service's own
    ensures r.Err? && r.error.statusCode != StatusInternalServerError ==>
      outcome.Response? && outcome.statusCode > 299 && decodeRestErr(outcome.body) == Some(r.error)
  {
    match outcome
    case TransportFailure => Err(InternalServerError(MsgRestClient))
    case Response(status, body) =>
      if status > 299 then
        match decodeRestErr(body)
        case None => Err(InternalServerError(MsgInvalidErrorInterface))
        case Some(e) => Err(e)
      else
        match decodeToken(body)
        case None => Err(InternalServerError(MsgUnmarshalToken))
        case Some(t) => Ok(t)
  }

  /** The resolver the source calls: the GET (`fetch`) followed by `GetAccessToken`. */
  function RemoteResolver(fetch: string -> HttpOutcome, decodeRestErr: Bytes -> Option<RestErr>,
                          decodeToken: Bytes -> Option<Token>): (resolve: Resolver)
    ensures forall id :: fetch(id) == TransportFailure ==> resolve(id) == Err(InternalServerError(MsgRestClient))
    ensures forall id :: resolve(id).Ok? ==>
      fetch(id).Response? && fetch(id).statusCode <= 299 && decodeToken(fetch(id).body) == Some(resolve(id).value)
    ensures forall id :: resolve(id).Err? && resolve(id).error.statusCode == StatusNotFound ==>
      fetch(id).Response? && fetch(id).statusCode > 299 && decodeRestErr(fetch(id).body) == Some(resolve(id).error)
  {
    tokenId => GetAccessToken(fetch(tokenId), decodeRestErr, decodeToken)
  }

  predicate IsTrustHeader(key: string)
  {
    key == HeaderXCallerId || key == HeaderXClientId
  }

  /** Every header other than the two trust headers is in `h'` exactly as in `h`. */
  ghost predicate OthersKept(h: Header, h': Header)
  {
    forall k :: !IsTrustHeader(k) ==> (k in h' <==> k in h) && (k in h' ==> h'[k] == h[k])
  }

  predicate TrustHeadersAbsent(h: Header)
  {
    HeaderXCallerId !in h && HeaderXClientId !in h
  }

  /** The header map `cleanRequest` leaves: both trust headers gone, the rest untouched. */
  function Cleaned(h: Header): (h': Header)
    ensures TrustHeadersAbsent(h')
    ensures OthersKept(h, h')
  {
    h - {HeaderXClientId, HeaderXCallerId}
  }

  /**
   * The two `Add` calls of a successful authentication, as written: `UserId`
   * goes into both. On a cleaned map both headers read back as the user id.
   */
  function Stamp(h: Header, t: Token): (h': Header)
    ensures OthersKept(h, h')
    ensures HeaderXCallerId in h' && h'[HeaderXCallerId] == Values(h, HeaderXCallerId) + [FormatInt(t.userId)]
    ensures HeaderXClientId in h' && h'[HeaderXClientId] == Values(h, HeaderXClientId) + [FormatInt(t.userId)]
    ensures TrustHeadersAbsent(h) ==> HeaderId(h', HeaderXCallerId) == t.userId && HeaderId(h', HeaderXClientId) == t.userId
  {
    var h1 := h[HeaderXCallerId := Values(h, HeaderXCallerId) + [FormatInt(t.userId)]];
    ParseFormatRoundTrip(t.userId);
    h1[HeaderXClientId := Values(h1, HeaderXClientId) + [FormatInt(t.userId)]]
  }

  /**
   * The two `Add` calls as evidently intended: `ClientId` goes into the
   * client header. On a cleaned map the headers read back as the two ids.
   */
  function StampIntended(h: Header, t: Token): (h': Header)
    ensures OthersKept(h, h')
    ensures HeaderXCallerId in h' && h'[HeaderXCallerId] == Values(h, HeaderXCallerId) + [FormatInt(t.userId)]
    ensures HeaderXClientId in h' && h'[HeaderXClientId] == Values(h, HeaderXClientId) + [FormatInt(t.clientId)]
    ensures TrustHeadersAbsent(h) ==> HeaderId(h', HeaderXCallerId) == t.userId && HeaderId(h', HeaderXClientId) == t.clientId
  {
    var h1 := h[HeaderXCallerId := Values(h, HeaderXCallerId) + [FormatInt(t.userId)]];
    ParseFormatRoundTrip(t.userId);
    ParseFormatRoundTrip(t.clientId);
    h1[HeaderXClientId := Values(h1, HeaderXClientId) + [FormatInt(t.clientId)]]
  }

  /**
   * What `AuthenticateRequest` does to a non-nil request with header map `h`
   * and raw `token` query value `tokenQuery`: the new header map and the
   * error it returns.
   */
  function Authenticate(h: Header, tokenQuery: string, resolve: Resolver): (r: (Header, Option<RestErr>))
    ensures OthersKept(h, r.0)
    ensures TrustHeadersAbsent(r.0) || (HeaderXCallerId in r.0 && HeaderXClientId in r.0
                                        && |r.0[HeaderXCallerId]| == 1 && |r.0[HeaderXClientId]| == 1)
    ensures r.1.Some? ==> r.1.value.statusCode != StatusNotFound && TrustHeadersAbsent(r.0)
  {
    var cleaned := Cleaned(h);
    var tokenId := TrimSpace(tokenQuery);
    if tokenId == "" then (cleaned, None)
    else
      match resolve(tokenId)
      case Err(e) => if e.statusCode == StatusNotFound then (cleaned, None) else (cleaned, Some(e))
      case Ok(t) => (Stamp(cleaned, t), None)
  }

  /** `Authenticate` with the evidently intended stamping: the client header gets `ClientId`. */
  function AuthenticateIntended(h: Header, tokenQuery: string, resolve: Resolver): (r: (Header, Option<RestErr>))
    ensures OthersKept(h, r.0)
    ensures r.1.Some? ==> r.1.value.statusCode != StatusNotFound && TrustHeadersAbsent(r.0)
  {
    var cleaned := Cleaned(h);
    var tokenId := TrimSpace(tokenQuery);
    if tokenId == "" then (cleaned, None)
    else
      match resolve(tokenId)
      case Err(e) => if e.statusCode == StatusNotFound then (cleaned, None) else (cleaned, Some(e))
      case Ok(t) => (StampIntended(cleaned, t), None)
  }

  /** `cleanRequest`: delete both trust headers; nothing happens to a nil request. */
  method CleanRequest(req: Request?)
    modifies req
    ensures req != null ==> req.header == Cleaned(old(req.header))
  {
    if req == null {
      return;
    }
    req.Del(HeaderXClientId);
    req.Del(HeaderXCallerId);
  }

  /**
   * `AuthenticateRequest`: clean the request, trim the token query value,
   * and if it is not empty resolve it. A not-found token is anonymous, any
   * other error is returned, and a token is stamped onto the trust headers.
   */
  method AuthenticateRequest(req: Request?, tokenQuery: string, resolve: Resolver)
    returns (err: Option<RestErr>)
    modifies req
    ensures req == null ==> err == None
    ensures req != null ==> (req.header, err) == Authenticate(old(req.header), tokenQuery, resolve)
  {
    if req == null {
      return None;
    }
    CleanRequest(req);
    var tokenId := TrimSpace(tokenQuery);
    if tokenId == "" {
      return None;
    }
    var resolved := resolve(tokenId);
    if resolved.Err? {
      if resolved.error.statusCode == StatusNotFound {
        return None;
      }
      return Some(resolved.error);
    }
    var t := resolved.value;
    req.Add(HeaderXCallerId, FormatInt(t.userId));
    // the client header also receives the user id here; see ClientHeaderCarriesUserId
    req.Add(HeaderXClientId, FormatInt(t.userId));
    return None;
  }
}
