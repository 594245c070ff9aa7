/** The USOS API session broker: the three-legged OAuth 1.0 flow of
    sections 2.1 to 2.3 of RFC 5849 against one provider. Pending request
    tokens wait in a map until they are exchanged or expire; at most one
    authorized session is installed at a time and every signed fetch uses it.

    The provider's legs (request token, access token, signed POST) are not
    code of this component: each is a parameter, a function from what is sent
    to what comes back, so that every reply the provider could give is
    covered. Time is an integer clock in seconds, passed in. */
module UsosApi {
  import opened Wrappers
  import opened Exceptions

  const RequestTokenSuffix := "services/oauth/request_token"
  const AuthorizeSuffix := "services/oauth/authorize"
  const AccessTokenSuffix := "services/oauth/access_token"
  const UserService := "services/users/user"
  const RevokeTokenService := "services/oauth/revoke_token"
  /** The callback get_auth_url uses when the caller gives none. */
  const OutOfBand := "oob"

  /** Seconds a pending request token may wait before the sweep drops it. */
  const ExpirationTime := 1800

  const InvalidRequestToken := "Invalid request token"
  const KeyMismatch := "Consumer key or token key does not match"
  const ResumeFailed := "Error resuming USOSAPI session"
  const NotAuthorizedMessage := "Trying to fetch data from not authorized USOSAPI session"

  type Token = string

  /** Query parameters of a service call (Python keyword arguments). */
  type Params = map<string, string>

  /** A decoded JSON document. */
  datatype Json =
    | JNull
    | JBool(b: bool)
    | JInt(i: int)
    | JStr(s: string)
    | JArray(items: seq<Json>)
    | JObject(fields: map<string, Json>)

  /** Python's truth value of a decoded JSON value. */
  predicate Truthy(j: Json) {
    match j
    case JNull => false
    case JBool(b) => b
    case JInt(i) => i != 0
    case JStr(s) => s != []
    case JArray(items) => items != []
    case JObject(fields) => fields != map[]
  }

  /** j[key] in Python: a dictionary lookup, KeyError for a missing key,
      TypeError for anything that is not a dictionary. */
  function Subscript(j: Json, key: string): (r: Result<Json, Error>)
    ensures r.Success? <==> j.JObject? && key in j.fields
    ensures r.Success? ==> r.value == j.fields[key]
    ensures j.JObject? && key !in j.fields ==> r == Failure(KeyError(key))
    ensures !j.JObject? ==> r == Failure(TypeError)
  {
    match j
    case JObject(fields) => if key in fields then Success(fields[key]) else Failure(KeyError(key))
    case _ => Failure(TypeError)
  }

  /** An HTTP reply: the status and the body, None when it is not JSON. */
  datatype Response = Response(status: int, body: Option<Json>)

  /** requests' Response.ok: false exactly for 4xx and 5xx statuses. */
  predicate IsOk(response: Response) {
    !(400 <= response.status < 600)
  }

  /** What a fetch does with the reply: raise_for_status, then json(). */
  function Decode(response: Response): (r: Result<Json, Error>)
    ensures r.Success? <==> IsOk(response) && response.body.Some?
    ensures r.Success? ==> r.value == response.body.value
    ensures !IsOk(response) ==> r == Failure(HttpError(response.status))
    ensures IsOk(response) && response.body.None? ==> r == Failure(JsonDecodeError)
  {
    if !IsOk(response) then Failure(HttpError(response.status))
    else if response.body.None? then Failure(JsonDecodeError)
    else Success(response.body.value)
  }

  /** What a fetch makes of a POST: the request's own error escapes, a reply
      goes through Decode. */
  function Received(reply: Result<Response, Error>): (r: Result<Json, Error>)
    ensures reply.Failure? ==> r == Failure(reply.error)
    ensures reply.Success? ==> r == Decode(reply.value)
  {
    var response :- reply;
    Decode(response)
  }

  /** A pending authorization: the request token's secret and when it was issued. */
  datatype PendingAuth = PendingAuth(secret: string, timestamp: int)

  /** The credentials of an authorized session. */
  datatype AccessData = AccessData(accessToken: string, accessTokenSecret: string)

  /** The provider's authorize page with its query parameters. */
  datatype AuthorizeRedirect = AuthorizeRedirect(url: string, query: seq<(string, string)>)

  /** Leg 1 (RFC 5849 section 2.1): (callback, scopes) to (token, secret), or a failure. */
  type RequestTokenLeg = (string, string) -> Result<(Token, string), Error>

  /** Leg 3 (RFC 5849 section 2.3): (request token, its secret, verifier) to
      access credentials; a mismatch surfaces from the library as KeyError. */
  type AccessTokenLeg = (Token, string, string) -> Result<AccessData, Error>

  /** A signed POST: the signing credentials (None: consumer only), the URL
      and the query parameters, to the provider's reply, or the error the
      request raises (a connection failure, a timeout, a signing error). */
  type SignedPost = (Option<AccessData>, string, Params) -> Result<Response, Error>

  predicate EndsWithSlash(s: string) {
    |s| > 0 && s[|s| - 1] == '/'
  }

  /** The base address with a trailing "/" added when it lacks one. */
  function NormalizeBase(address: string): (r: string)
    ensures EndsWithSlash(r)
    ensures address <= r && |r| <= |address| + 1
    ensures r == address <==> EndsWithSlash(address)
  {
    if EndsWithSlash(address) then address else address + "/"
  }

  predicate Expired(entry: PendingAuth, now: int) {
    now - entry.timestamp > ExpirationTime
  }

  /** The pending authorizations a sweep at time now keeps. */
  function Unexpired(pending: map<Token, PendingAuth>, now: int): (r: map<Token, PendingAuth>)
    ensures forall t :: t in r <==> t in pending && now - pending[t].timestamp <= ExpirationTime
    ensures forall t :: t in r ==> r[t] == pending[t]
  {
    map t | t in pending && !Expired(pending[t], now) :: pending[t]
  }

  /** is_session_authorized for installed credentials: fetch the current
      user and take the truth value of its "id"; a not-authorized error,
      wherever it comes from, counts as false. */
  function IdentityProbe(credentials: AccessData, baseAddress: string, post: SignedPost): Result<bool, Error>
  {
    match Received(post(Some(credentials), baseAddress + UserService, map[]))
    case Failure(e) => if e.SessionNotAuthorized? then Success(false) else Failure(e)
    case Success(identity) =>
      var id :- Subscript(identity, "id");
      Success(Truthy(id))
  }

  /** What resume_session makes of the identity probe. */
  function ResumeOutcome(probe: Result<bool, Error>): Result<(), Error> {
    match probe
    case Success(true) => Success(())
    case Success(false) => Failure(AuthorizationFailed(ResumeFailed))
    case Failure(e) => Failure(e)
  }

  /** What authorize raises when the access-token exchange fails: a KeyError
      becomes an authorization error, anything else passes through. */
  function ExchangeFailure(e: Error): Error {
    if e.KeyError? then AuthorizationFailed(KeyMismatch) else e
  }

  class UsosApiSession {
    const scopes: string
    const baseAddress: string
    const requestTokenUrl: string
    const authorizeUrl: string
    const accessTokenUrl: string

    /** Pending request tokens, each with its secret and issue time. */
    var authSessions: map<Token, PendingAuth>
    /** The single shared authorized session, if any. */
    var authorizedSession: Option<AccessData>

    ghost predicate Valid()
      reads this
    {
      && EndsWithSlash(baseAddress)
      && requestTokenUrl == baseAddress + RequestTokenSuffix
      && authorizeUrl == baseAddress + AuthorizeSuffix
      && accessTokenUrl == baseAddress + AccessTokenSuffix
    }

    constructor (apiBaseAddress: string, scopes: string)
      ensures Valid()
      ensures this.scopes == scopes
      ensures baseAddress == NormalizeBase(apiBaseAddress)
      ensures authSessions == map[] && authorizedSession == None
    {
      var base := NormalizeBase(apiBaseAddress);
      this.scopes := scopes;
      baseAddress := base;
      requestTokenUrl := base + RequestTokenSuffix;
      authorizeUrl := base + AuthorizeSuffix;
      accessTokenUrl := base + AccessTokenSuffix;
      authSessions := map[];
      authorizedSession := None;
    }

    /** Leg 1: obtain a request token, remember it as pending at time now,
        and return it with the provider's authorize page for it. */
    method GetAuthUrl(now: int, requestToken: RequestTokenLeg, callback: string := OutOfBand)
      returns (r: Result<(Token, AuthorizeRedirect), Error>)
      modifies this`authSessions
      ensures requestToken(callback, scopes).Failure? ==>
        r == Failure(requestToken(callback, scopes).error) && authSessions == old(authSessions)
      ensures requestToken(callback, scopes).Success? ==>
        var (token, secret) := requestToken(callback, scopes).value;
        && authSessions == old(authSessions)[token := PendingAuth(secret, now)]
        && r == Success((token, AuthorizeRedirect(authorizeUrl, [("oauth_token", token)])))
    {
      var reply := requestToken(callback, scopes);
      if reply.Failure? {
        return Failure(reply.error);
      }
      var (token, secret) := reply.value;
      authSessions := authSessions[token := PendingAuth(secret, now)];
      r := Success((token, AuthorizeRedirect(authorizeUrl, [("oauth_token", token)])));
    }

    /** Leg 3: spend the pending request token (removed before the exchange)
        and install the access credentials the provider grants. */
    method Authorize(requestToken: Token, pin: string, accessToken: AccessTokenLeg)
      returns (r: Result<(), Error>)
      modifies this
      ensures requestToken !in authSessions
      ensures requestToken !in old(authSessions) ==>
        && r == Failure(AuthorizationFailed(InvalidRequestToken))
        && authSessions == old(authSessions)
        && authorizedSession == old(authorizedSession)
      ensures requestToken in old(authSessions) ==>
        var exchange := accessToken(requestToken, old(authSessions)[requestToken].secret, pin);
        && authSessions == old(authSessions) - {requestToken}
        && (exchange.Success? ==> r == Success(()) && authorizedSession == Some(exchange.value))
        && (exchange.Failure? ==>
              r == Failure(ExchangeFailure(exchange.error)) && authorizedSession == old(authorizedSession))
    {
      if requestToken !in authSessions {
        return Failure(AuthorizationFailed(InvalidRequestToken));
      }
      var secret := authSessions[requestToken].secret;
      authSessions := authSessions - {requestToken};
      var exchange := accessToken(requestToken, secret, pin);
      if exchange.Failure? {
        return Failure(ExchangeFailure(exchange.error));
      }
      authorizedSession := Some(exchange.value);
      r := Success(());
    }

    /** The installed credentials; reading them from no session is an AttributeError. */
    method GetAccessData() returns (r: Result<AccessData, Error>)
      ensures r.Success? <==> authorizedSession.Some?
      ensures r.Success? ==> r.value == authorizedSession.value
      ensures r.Failure? ==> r.error == AttributeError("access_token")
    {
      if authorizedSession.None? {
        return Failure(AttributeError("access_token"));
      }
      r := Success(authorizedSession.value);
    }

    /** Install externally kept credentials, then check them with the identity
        probe. The credentials stay installed whatever the probe says. */
    method ResumeSession(accessToken: string, accessTokenSecret: string, post: SignedPost)
      returns (r: Result<(), Error>)
      modifies this`authorizedSession
      ensures authorizedSession == Some(AccessData(accessToken, accessTokenSecret))
      ensures r == ResumeOutcome(IdentityProbe(AccessData(accessToken, accessTokenSecret), baseAddress, post))
    {
      authorizedSession := Some(AccessData(accessToken, accessTokenSecret));
      var authorized := IsSessionAuthorized(post);
      match authorized {
        case Failure(e) => r := Failure(e);
        case Success(ok) => r := if ok then Success(()) else Failure(AuthorizationFailed(ResumeFailed));
      }
    }

    /** A POST to base address + service signed with the installed session. */
    method FetchFromService(service: string, params: Params, post: SignedPost)
      returns (r: Result<Json, Error>)
      ensures authorizedSession.None? ==> r == Failure(SessionNotAuthorized(NotAuthorizedMessage))
      ensures authorizedSession.Some? ==> r == Received(post(authorizedSession, baseAddress + service, params))
    {
      var session := authorizedSession;
      if session.None? {
        return Failure(SessionNotAuthorized(NotAuthorizedMessage));
      }
      var reply := post(session, baseAddress + service, params);
      if reply.Failure? {
        return Failure(reply.error);
      }
      var response := reply.value;
      if !IsOk(response) {
        return Failure(HttpError(response.status));
      }
      if response.body.None? {
        return Failure(JsonDecodeError);
      }
      r := Success(response.body.value);
    }

    /** A POST to base address + service signed with the consumer credentials only. */
    method FetchAnonymouslyFromService(service: string, params: Params, post: SignedPost)
      returns (r: Result<Json, Error>)
      ensures r == Received(post(None, baseAddress + service, params))
    {
      var reply := post(None, baseAddress + service, params);
      if reply.Failure? {
        return Failure(reply.error);
      }
      var response := reply.value;
      if !IsOk(response) {
        return Failure(HttpError(response.status));
      }
      if response.body.None? {
        return Failure(JsonDecodeError);
      }
      r := Success(response.body.value);
    }

    /** False without a session (and without any fetch); otherwise the truth
        value of the current user's "id". Only the not-authorized error is
        caught: HTTP, decoding and lookup errors escape. */
    method IsSessionAuthorized(post: SignedPost) returns (r: Result<bool, Error>)
      ensures authorizedSession.None? ==> r == Success(false)
      ensures authorizedSession.Some? ==> r == IdentityProbe(authorizedSession.value, baseAddress, post)
    {
      if authorizedSession.None? {
        return Success(false);
      }
      var identity := FetchFromService(UserService, map[], post);
      if identity.Failure? {
        if identity.error.SessionNotAuthorized? {
          return Success(false);
        }
        return Failure(identity.error);
      }
      var id := Subscript(identity.value, "id");
      if id.Failure? {
        return Failure(id.error);
      }
      r := Success(Truthy(id.value));
    }

    /** Revoke the installed session's token, then drop the session. Nothing
        to do without a session; a failed revoke escapes before the session
        is dropped. */
    method CloseSession(post: SignedPost) returns (r: Result<(), Error>)
      modifies this`authorizedSession
      ensures old(authorizedSession).None? ==> r == Success(()) && authorizedSession == None
      ensures old(authorizedSession).Some? ==>
        var revoke := Received(post(old(authorizedSession), baseAddress + RevokeTokenService, map[]));
        && (revoke.Success? ==> r == Success(()) && authorizedSession == None)
        && (revoke.Failure? ==> r == Failure(revoke.error) && authorizedSession == old(authorizedSession))
    {
      if authorizedSession.None? {
        return Success(());
      }
      var revoke := FetchFromService(RevokeTokenService, map[], post);
      if revoke.Failure? {
        return Failure(revoke.error);
      }
      authorizedSession := None;
      r := Success(());
    }

    /** Drop every pending authorization older than ExpirationTime seconds at
        time now; removed is the number dropped (the count the source logs). */
    method CleanupAuthSessions(now: int) returns (removed: nat)
      modifies this`authSessions
      ensures authSessions == Unexpired(old(authSessions), now)
      ensures removed == |old(authSessions).Keys - authSessions.Keys|
      ensures removed + |authSessions| == |old(authSessions)|
    {
      ghost var pending := authSessions;
      var expired := set t | t in authSessions && Expired(authSessions[t], now);
      var left := expired;
      ghost var gone: set<Token> := {};
      removed := 0;
      while left != {}
        invariant left <= expired && gone == expired - left
        invariant authSessions == pending - gone
        invariant removed == |gone|
        decreases left
      {
        var t :| t in left;
        authSessions := authSessions - {t};
        removed := removed + 1;
        left := left - {t};
        gone := gone + {t};
      }
      SweepRemovesExpired(pending, now, gone);
    }
  }

  /** Removing the expired tokens one by one leaves what Unexpired keeps,
      and every pending authorization is either kept or counted as removed. */
  lemma SweepRemovesExpired(pending: map<Token, PendingAuth>, now: int, expired: set<Token>)
    requires expired == set t | t in pending && Expired(pending[t], now)
    ensures pending - expired == Unexpired(pending, now)
    ensures pending.Keys - (pending - expired).Keys == expired
    ensures |expired| + |pending - expired| == |pending|
  {
  }

  /** Authorizing twice with one request token: whatever the first exchange
      does, the second attempt is refused as an invalid request token. */
  method AuthorizeIsSingleUse(session: UsosApiSession, requestToken: Token, pin: string, accessToken: AccessTokenLeg)
    returns (first: Result<(), Error>, second: Result<(), Error>)
    modifies session
    ensures second == Failure(AuthorizationFailed(InvalidRequestToken))
    ensures session.authSessions == old(session.authSessions) - {requestToken}
  {
    first := session.Authorize(requestToken, pin, accessToken);
    second := session.Authorize(requestToken, pin, accessToken);
  }

  /** Resuming installs exactly the given credentials, and reading the
      access data back returns them, whether or not the probe succeeded. */
  method ResumedCredentialsReadBack(session: UsosApiSession, accessToken: string, accessTokenSecret: string, post: SignedPost)
    returns (resumed: Result<(), Error>, data: Result<AccessData, Error>)
    modifies session
    ensures data == Success(AccessData(accessToken, accessTokenSecret))
    ensures session.authSessions == old(session.authSessions)
  {
    resumed := session.ResumeSession(accessToken, accessTokenSecret, post);
    data := session.GetAccessData();
  }
}
