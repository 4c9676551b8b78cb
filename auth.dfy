/**
 * The next-auth callbacks of src/lib/auth.ts. The JWT is a record whose
 * fields are spread (`...token`) and overwritten, so it is modelled as a map
 * from field names to values; an absent field reads as `undefined`. The
 * clock is the parameter `now` (milliseconds) and the token endpoint is the
 * parameter `exchange`, which answers a refresh-token grant (section 6 of
 * RFC 6749).
 */
module Auth {
  import opened Options

  /** The user record the identity provider returns on sign-in. */
  datatype User = User(name: Option<string>, email: Option<string>, image: Option<string>)

  /** A value stored in a token field. */
  datatype Value = Undefined | Str(s: string) | Num(n: int) | UserValue(user: User)

  type Token = map<string, Value>

  /** The OAuth account of a sign-in: its tokens and `expires_at` (seconds). */
  datatype Account = Account(access_token: Option<string>, expires_at: Option<int>, refresh_token: Option<string>)

  /** The refresh-token grant sent to the token endpoint. */
  datatype RefreshRequest = RefreshRequest(grantType: string, refreshToken: Value)

  /**
   * How the token exchange ends: a successful response, a response that is
   * not ok, or an error thrown by `fetch` or by the JSON decoding.
   */
  datatype RefreshOutcome =
    | Granted(accessToken: Value, expiresIn: int, refreshToken: Option<string>)
    | Rejected
    | FetchError

  const AccessTokenKey := "accessToken"
  const ExpiresKey := "accessTokenExpires"
  const RefreshTokenKey := "refreshToken"
  const UserKey := "user"
  const ErrorKey := "error"
  const RefreshError := Str("RefreshAccessTokenError")
  /** Lifetime, in seconds, used when the account carries no `expires_at`. */
  const DefaultLifetime := 3600

  /** Reading a field: `undefined` when the token has no such field. */
  function Get(token: Token, key: string): (v: Value)
    ensures key !in token ==> v == Undefined
    ensures key in token ==> v == token[key]
  {
    if key in token then token[key] else Undefined
  }

  function FromOption(o: Option<string>): (v: Value)
    ensures o.Some? ==> v == Str(o.value)
    ensures o.None? <==> v == Undefined
  {
    match o
    case Some(s) => Str(s)
    case None => Undefined
  }

  /** The grant: `grant_type=refresh_token` with the token's refresh token. */
  function RefreshRequestFor(token: Token): (r: RefreshRequest)
    ensures r.grantType == "refresh_token" && r.refreshToken == Get(token, RefreshTokenKey)
  {
    RefreshRequest("refresh_token", Get(token, RefreshTokenKey))
  }

  /** Same fields and values except possibly on `changed`. */
  ghost predicate AgreeOutside(a: Token, b: Token, changed: set<string>)
  {
    forall k :: k !in changed ==> (k in a <==> k in b) && (k in a ==> a[k] == b[k])
  }

  /**
   * `refreshAccessToken`: on success every other field is kept and the
   * access token, its expiry and the refresh token are replaced (the old
   * refresh token stays when none is returned); on failure the token is
   * kept and tagged with the error.
   */
  function RefreshAccessToken(token: Token, now: int, exchange: RefreshRequest -> RefreshOutcome): (r: Token)
    ensures exchange(RefreshRequestFor(token)).Granted? ==>
      var g := exchange(RefreshRequestFor(token));
      && AgreeOutside(r, token, {AccessTokenKey, ExpiresKey, RefreshTokenKey})
      && r.Keys == token.Keys + {AccessTokenKey, ExpiresKey, RefreshTokenKey}
      && r[AccessTokenKey] == g.accessToken
      && r[ExpiresKey] == Num(now + g.expiresIn * 1000)
      && r[RefreshTokenKey] == (if g.refreshToken.Some? then Str(g.refreshToken.value) else Get(token, RefreshTokenKey))
    ensures !exchange(RefreshRequestFor(token)).Granted? ==>
      && AgreeOutside(r, token, {ErrorKey})
      && r.Keys == token.Keys + {ErrorKey}
      && r[ErrorKey] == RefreshError
  {
    match exchange(RefreshRequestFor(token))
    case Granted(accessToken, expiresIn, refreshToken) =>
      var newRefresh := if refreshToken.Some? then Str(refreshToken.value) else Get(token, RefreshTokenKey);
      token[AccessTokenKey := accessToken][ExpiresKey := Num(now + expiresIn * 1000)][RefreshTokenKey := newRefresh]
    case _ =>
      token[ErrorKey := RefreshError]
  }

  /** The token built on initial sign-in; nothing of the previous token survives. */
  function SignInToken(account: Account, user: User, now: int): (r: Token)
    ensures r.Keys == {AccessTokenKey, ExpiresKey, RefreshTokenKey, UserKey}
    ensures r[AccessTokenKey] == FromOption(account.access_token)
    ensures r[ExpiresKey] == Num(now + account.expires_at.GetOr(DefaultLifetime) * 1000)
    ensures r[RefreshTokenKey] == FromOption(account.refresh_token)
    ensures r[UserKey] == UserValue(user)
  {
    map[AccessTokenKey := FromOption(account.access_token),
        ExpiresKey := Num(now + account.expires_at.GetOr(DefaultLifetime) * 1000),
        RefreshTokenKey := FromOption(account.refresh_token),
        UserKey := UserValue(user)]
  }

  /** `Date.now() < token.accessTokenExpires`; an absent or non-numeric expiry never compares below. */
  predicate Unexpired(token: Token, now: int)
  {
    Get(token, ExpiresKey).Num? && now < Get(token, ExpiresKey).n
  }

  /**
   * The `jwt` callback: a fresh token on sign-in, the same token while it is
   * unexpired, and otherwise the outcome of a refresh. The clock is read
   * twice: `now` for sign-in and the expiry comparison, and `refreshNow`,
   * taken after the token endpoint has answered, for the refreshed expiry.
   */
  function Jwt(token: Token, user: Option<User>, account: Option<Account>, now: int, refreshNow: int,
               exchange: RefreshRequest -> RefreshOutcome): (r: Token)
    requires now <= refreshNow
    ensures account.Some? && user.Some? ==> r == SignInToken(account.value, user.value, now)
    ensures !(account.Some? && user.Some?) && Unexpired(token, now) ==> r == token
    ensures !(account.Some? && user.Some?) && !Unexpired(token, now) ==> r == RefreshAccessToken(token, refreshNow, exchange)
  {
    if account.Some? && user.Some? then SignInToken(account.value, user.value, now)
    else if Unexpired(token, now) then token
    else RefreshAccessToken(token, refreshNow, exchange)
  }

  /**
   * A granted refresh dates the new expiry from the second clock reading, so
   * the time the token request took is added to the token's lifetime.
   */
  lemma RefreshExpiryUsesSecondReading(token: Token, now: int, refreshNow: int,
                                       exchange: RefreshRequest -> RefreshOutcome)
    requires now <= refreshNow && !Unexpired(token, now)
    requires exchange(RefreshRequestFor(token)).Granted?
    ensures Jwt(token, None, None, now, refreshNow, exchange)[ExpiresKey]
            == Num(refreshNow + exchange(RefreshRequestFor(token)).expiresIn * 1000)
  {
  }

  /** After a successful refresh with a positive lifetime, the next call at the same time does not refresh again. */
  lemma RefreshedTokenIsUnexpired(token: Token, now: int, exchange: RefreshRequest -> RefreshOutcome,
                                  exchange2: RefreshRequest -> RefreshOutcome)
    requires exchange(RefreshRequestFor(token)).Granted? && exchange(RefreshRequestFor(token)).expiresIn > 0
    ensures var t := RefreshAccessToken(token, now, exchange);
            Jwt(t, None, None, now, now, exchange2) == t
  {
    var t := RefreshAccessToken(token, now, exchange);
    assert Get(t, ExpiresKey) == Num(now + exchange(RefreshRequestFor(token)).expiresIn * 1000);
  }

  /** A sign-in token with a positive lifetime is returned unchanged by the next call at the same time. */
  lemma SignInTokenIsUnexpired(account: Account, user: User, now: int, exchange: RefreshRequest -> RefreshOutcome)
    requires account.expires_at.GetOr(DefaultLifetime) > 0
    ensures var t := SignInToken(account, user, now);
            Jwt(t, None, None, now, now, exchange) == t
  {
    var t := SignInToken(account, user, now);
    assert Get(t, ExpiresKey).n == now + account.expires_at.GetOr(DefaultLifetime) * 1000;
  }

  /**
   * A failed refresh leaves the expiry as it was, so an expired token is
   * refreshed again on the next call; and the error tag survives a later
   * successful refresh, because that refresh spreads the old token.
   */
  lemma FailedRefreshIsRetried(token: Token, now: int, exchange: RefreshRequest -> RefreshOutcome,
                               later: int, laterRefresh: int, exchange2: RefreshRequest -> RefreshOutcome)
    requires !exchange(RefreshRequestFor(token)).Granted?
    requires !Unexpired(token, later)
    requires later <= laterRefresh
    ensures var t := RefreshAccessToken(token, now, exchange);
            && Jwt(t, None, None, later, laterRefresh, exchange2) == RefreshAccessToken(t, laterRefresh, exchange2)
            && (exchange2(RefreshRequestFor(t)).Granted? ==>
                  Jwt(t, None, None, later, laterRefresh, exchange2)[ErrorKey] == RefreshError)
  {
    var t := RefreshAccessToken(token, now, exchange);
    assert Get(t, ExpiresKey) == Get(token, ExpiresKey);
  }

  /** The client session object that the `session` callback fills in. */
  class ClientSession {
    var user: Value
    var accessToken: Value
    var error: Value
    /** Set by the session library; the callback leaves it alone. */
    var expires: string

    constructor (expires: string)
      ensures this.expires == expires && user == Undefined && accessToken == Undefined && error == Undefined
    {
      this.expires := expires;
      user, accessToken, error := Undefined, Undefined, Undefined;
    }
  }

  /**
   * The `session` callback: copies the user, the access token and the error
   * (each `undefined` when the token lacks it) onto the session, and returns
   * that same object.
   */
  method SessionCallback(session: ClientSession, token: Token) returns (r: ClientSession)
    modifies session
    ensures r == session
    ensures session.user == Get(token, UserKey)
    ensures session.accessToken == Get(token, AccessTokenKey)
    ensures session.error == Get(token, ErrorKey)
    ensures session.expires == old(session.expires)
  {
    session.user := Get(token, UserKey);
    session.accessToken := Get(token, AccessTokenKey);
    session.error := Get(token, ErrorKey);
    return session;
  }

  /** A session built from a failed refresh reports the error; one from a fresh sign-in reports none. */
  method SessionAfterRefresh(token: Token, now: int, refreshNow: int, exchange: RefreshRequest -> RefreshOutcome)
    returns (reported: Value)
    requires !Unexpired(token, now) && now <= refreshNow
    ensures !exchange(RefreshRequestFor(token)).Granted? ==> reported == RefreshError
    ensures exchange(RefreshRequestFor(token)).Granted? ==> reported == Get(token, ErrorKey)
  {
    var t := Jwt(token, None, None, now, refreshNow, exchange);
    var s := new ClientSession("");
    s := SessionCallback(s, t);
    reported := s.error;
  }
}
