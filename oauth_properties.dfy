/** What the authenticator promises its callers, proved of the model in module OAuth. */
module OAuthProperties {
  import opened Wrappers
  import opened Strconv
  import opened Strings
  import opened HttpHeader
  import opened OAuth

  /** A blank or whitespace-only token is anonymous: no error and no trust header, whatever came in. */
  lemma BlankTokenIsAnonymous(h: Header, tokenQuery: string, resolve: Resolver)
    requires AllSpace(tokenQuery)
    ensures Authenticate(h, tokenQuery, resolve) == (Cleaned(h), None)
    ensures TrustHeadersAbsent(Authenticate(h, tokenQuery, resolve).0)
  {
    assert TrimSpace(tokenQuery) == [];
  }

  /** A token the service does not know is treated like no token at all. */
  lemma NotFoundIsAnonymous(h: Header, tokenQuery: string, resolve: Resolver)
    requires TrimSpace(tokenQuery) != []
    requires resolve(TrimSpace(tokenQuery)).Err?
    requires resolve(TrimSpace(tokenQuery)).error.statusCode == StatusNotFound
    ensures Authenticate(h, tokenQuery, resolve) == (Cleaned(h), None)
  {
  }

  /** Any other resolution error is returned unchanged, and no trust header is left. */
  lemma OtherErrorsPassThrough(h: Header, tokenQuery: string, resolve: Resolver)
    requires TrimSpace(tokenQuery) != []
    requires resolve(TrimSpace(tokenQuery)).Err?
    requires resolve(TrimSpace(tokenQuery)).error.statusCode != StatusNotFound
    ensures Authenticate(h, tokenQuery, resolve) == (Cleaned(h), Some(resolve(TrimSpace(tokenQuery)).error))
  {
  }

  /** A trust header is present after authentication only if the token resolved. */
  lemma TrustHeadersOnlyFromResolution(h: Header, tokenQuery: string, resolve: Resolver)
    ensures var (h', err) := Authenticate(h, tokenQuery, resolve);
      || TrustHeadersAbsent(h')
      || (TrimSpace(tokenQuery) != [] && resolve(TrimSpace(tokenQuery)).Ok? && err == None)
  {
  }

  /** A resolved token leaves exactly one value in each trust header: the inbound ones are gone. */
  lemma ResolvedStampsOneValueEach(h: Header, tokenQuery: string, resolve: Resolver)
    requires TrimSpace(tokenQuery) != [] && resolve(TrimSpace(tokenQuery)).Ok?
    ensures var t := resolve(TrimSpace(tokenQuery)).value;
      var (h', err) := Authenticate(h, tokenQuery, resolve);
      && err == None
      && HeaderXCallerId in h' && h'[HeaderXCallerId] == [FormatInt(t.userId)]
      && HeaderXClientId in h' && h'[HeaderXClientId] == [FormatInt(t.userId)]
  {
  }

  /** After a resolved authentication the caller id reads back as the token's user id. */
  lemma ResolvedCallerIdReadsBack(h: Header, tokenQuery: string, resolve: Resolver)
    requires TrimSpace(tokenQuery) != [] && resolve(TrimSpace(tokenQuery)).Ok?
    ensures HeaderId(Authenticate(h, tokenQuery, resolve).0, HeaderXCallerId)
            == resolve(TrimSpace(tokenQuery)).value.userId
  {
    var t := resolve(TrimSpace(tokenQuery)).value;
    ResolvedStampsOneValueEach(h, tokenQuery, resolve);
    ParseFormatRoundTrip(t.userId);
  }

  /**
   * As written, the client id also reads back as the user id: the second
   * `Add` renders `UserId`, not `ClientId`.
   */
  lemma ClientHeaderCarriesUserId(h: Header, tokenQuery: string, resolve: Resolver)
    requires TrimSpace(tokenQuery) != [] && resolve(TrimSpace(tokenQuery)).Ok?
    ensures HeaderId(Authenticate(h, tokenQuery, resolve).0, HeaderXClientId)
            == resolve(TrimSpace(tokenQuery)).value.userId
  {
    var t := resolve(TrimSpace(tokenQuery)).value;
    ResolvedStampsOneValueEach(h, tokenQuery, resolve);
    ParseFormatRoundTrip(t.userId);
  }

  /**
   * The token of the header-setting test (user 123, client 12): the client
   * header reads back as 123, where that test expects 12.
   */
  lemma TestTokenClientHeaderMismatch(h: Header)
    ensures var t := Token("1234", 123, 12);
      var h' := Authenticate(h, "1234", _ => Ok(t)).0;
      && HeaderId(h', HeaderXCallerId) == 123
      && HeaderId(h', HeaderXClientId) == 123
      && HeaderId(h', HeaderXClientId) != t.clientId
  {
    var t := Token("1234", 123, 12);
    var resolve: Resolver := _ => Ok(t);
    assert TrimSpace("1234") != [] by {
      assert !IsSpace("1234"[0]);
    }
    ResolvedCallerIdReadsBack(h, "1234", resolve);
    ClientHeaderCarriesUserId(h, "1234", resolve);
  }

  /** The intended stamping reads back the user id as caller and the client id as client. */
  lemma StampIntendedReadsBack(h: Header, t: Token)
    ensures var h' := StampIntended(Cleaned(h), t);
      && HeaderId(h', HeaderXCallerId) == t.userId
      && HeaderId(h', HeaderXClientId) == t.clientId
      && h'[HeaderXCallerId] == [FormatInt(t.userId)]
      && h'[HeaderXClientId] == [FormatInt(t.clientId)]
  {
    ParseFormatRoundTrip(t.userId);
    ParseFormatRoundTrip(t.clientId);
  }

  /**
   * With the intended stamping, a resolved authentication reads back the
   * user id as caller and the client id as client, and otherwise agrees
   * with the authentication as written.
   */
  lemma IntendedAuthenticationReadsBack(h: Header, tokenQuery: string, resolve: Resolver)
    ensures var tokenId := TrimSpace(tokenQuery);
      var (h', err) := AuthenticateIntended(h, tokenQuery, resolve);
      && (tokenId != [] && resolve(tokenId).Ok? ==>
            && err == None
            && HeaderId(h', HeaderXCallerId) == resolve(tokenId).value.userId
            && HeaderId(h', HeaderXClientId) == resolve(tokenId).value.clientId)
      && (!(tokenId != [] && resolve(tokenId).Ok?) ==> (h', err) == Authenticate(h, tokenQuery, resolve))
  {
    var tokenId := TrimSpace(tokenQuery);
    if tokenId != [] && resolve(tokenId).Ok? {
      var t := resolve(tokenId).value;
      assert AuthenticateIntended(h, tokenQuery, resolve).0 == StampIntended(Cleaned(h), t);
    }
  }

  /** Cleaning after a stamp gives back the cleaned map: stamping only touches the trust headers. */
  lemma CleanedUndoesStamp(h: Header, t: Token)
    ensures Cleaned(Stamp(Cleaned(h), t)) == Cleaned(h)
    ensures Cleaned(Cleaned(h)) == Cleaned(h)
  {
    var a := Cleaned(Stamp(Cleaned(h), t));
    var b := Cleaned(h);
    assert a.Keys == b.Keys;
  }

  /** Authentication looks at the inbound headers only after cleaning them. */
  lemma AuthenticateSeesOnlyCleaned(h: Header, h': Header, tokenQuery: string, resolve: Resolver)
    requires Cleaned(h') == Cleaned(h)
    ensures Authenticate(h', tokenQuery, resolve) == Authenticate(h, tokenQuery, resolve)
  {
  }

  /** Authenticating twice with the same token and resolver leaves what authenticating once leaves. */
  lemma AuthenticateIdempotent(h: Header, tokenQuery: string, resolve: Resolver)
    ensures var (h1, e1) := Authenticate(h, tokenQuery, resolve);
      Authenticate(h1, tokenQuery, resolve) == (h1, e1)
  {
    var h1 := Authenticate(h, tokenQuery, resolve).0;
    var tokenId := TrimSpace(tokenQuery);
    if tokenId != [] && resolve(tokenId).Ok? {
      CleanedUndoesStamp(h, resolve(tokenId).value);
      assert h1 == Stamp(Cleaned(h), resolve(tokenId).value);
    } else {
      CleanedUndoesStamp(h, Token("", 0, 0));
      assert h1 == Cleaned(h);
    }
    AuthenticateSeesOnlyCleaned(h, h1, tokenQuery, resolve);
  }

  /** When the GET fails at the transport level, authentication surfaces an internal error. */
  lemma TransportFailureIsInternalError(h: Header, tokenQuery: string, fetch: string -> HttpOutcome,
                                        decodeRestErr: Bytes -> Option<RestErr>,
                                        decodeToken: Bytes -> Option<Token>)
    requires TrimSpace(tokenQuery) != [] && fetch(TrimSpace(tokenQuery)) == TransportFailure
    ensures Authenticate(h, tokenQuery, RemoteResolver(fetch, decodeRestErr, decodeToken))
            == (Cleaned(h), Some(InternalServerError(MsgRestClient)))
  {
  }

  /** A request with no token but a forged `X-Caller-Id: 999` reads back caller 0 afterwards. */
  lemma ForgedCallerIdIsCleared()
    ensures HeaderId(Authenticate(map[HeaderXCallerId := ["999"]], "", _ => Err(InternalServerError(""))).0,
                     HeaderXCallerId) == 0
  {
  }

  /** The accessor cases of the source's tests: "15" reads as 15, "asdaf1124" and no header as 0. */
  lemma HeaderIdExamples()
    ensures HeaderId(map[HeaderXCallerId := ["15"]], HeaderXCallerId) == 15
    ensures HeaderId(map[HeaderXCallerId := ["asdaf1124"]], HeaderXCallerId) == 0
    ensures HeaderId(map[HeaderXClientId := ["15"]], HeaderXClientId) == 15
    ensures HeaderId(map[HeaderXClientId := ["asdaf1124"]], HeaderXClientId) == 0
    ensures HeaderId(map[], HeaderXCallerId) == 0
    ensures HeaderId(map[], HeaderXClientId) == 0
  {
    assert LiteralValue("15") == 15 by {
      assert Unsigned("15") == "15";
      assert "15"[..1] == "1" && "1"[..0] == "";
      assert DecimalValue("1") == 1;
    }
    assert !IsDigit("asdaf1124"[0]);
  }

  /** Calling `AuthenticateRequest` twice on one request leaves the header map one call leaves. */
  method AuthenticateTwice(req: Request, tokenQuery: string, resolve: Resolver)
    returns (first: Option<RestErr>, second: Option<RestErr>)
    modifies req
    ensures req.header == Authenticate(old(req.header), tokenQuery, resolve).0
    ensures first == second
  {
    first := AuthenticateRequest(req, tokenQuery, resolve);
    second := AuthenticateRequest(req, tokenQuery, resolve);
    AuthenticateIdempotent(old(req.header), tokenQuery, resolve);
  }

  /** The accessor cases of the source's tests, on requests. */
  method AccessorsOnRequests()
  {
    assert IsPublic(null) && GetCallerId(null) == 0 && GetClientId(null) == 0;
    var bare := new Request(map[]);
    assert !IsPublic(bare) && GetCallerId(bare) == 0 && GetClientId(bare) == 0;
    var public := new Request(map[HeaderXPublic := ["true"]]);
    assert IsPublic(public);
    HeaderIdExamples();
    var caller := new Request(map[HeaderXCallerId := ["15"]]);
    assert GetCallerId(caller) == 15;
    var badCaller := new Request(map[HeaderXCallerId := ["asdaf1124"]]);
    assert GetCallerId(badCaller) == 0;
    var client := new Request(map[HeaderXClientId := ["15"]]);
    assert GetClientId(client) == 15;
    var badClient := new Request(map[HeaderXClientId := ["asdaf1124"]]);
    assert GetClientId(badClient) == 0;
  }
}
