/**
 * `handlerCallback`: a linear chain of checks on the provider's redirect
 * back to the gateway. It reads the state cookie, compares the state,
 * exchanges the code, resolves the user, signs the gateway's token and
 * redirects the browser to the stored redirect with the token added.
 */
module CallbackHandler {
  import opened Wrappers
  import opened Text
  import opened Http
  import opened ServerUtils
  import opened StateCodec
  import Server
  import OAuth
  import LoginHandler

  /** A JWT claim value: a string or a NumericDate. */
  datatype Claim = Str(s: string) | Num(n: int)

  /** The unsigned token: its JOSE header and its claims set. */
  datatype Token = Token(header: map<string, string>, claims: map<string, Claim>)

  /** `metrics.RecordAuthentication(provider, host, result, reason)`. */
  datatype Metric = Metric(provider: string, host: string, result: string, reason: string)

  /**
   * What one callback request produces: the status and body, the metric it
   * records (at most one), the cookie it sets, the Location header, and the
   * token delivered in that redirect.
   */
  datatype Outcome = Outcome(
    status: int,
    body: string,
    metric: Option<Metric>,
    cookie: Option<Cookie>,
    location: Option<string>,
    token: Option<Token>)

  /** `http.Error` with an optional metric recorded before it. */
  function Fail(status: int, body: string, metric: Option<Metric>): Outcome {
    Outcome(status, body, metric, None, None, None)
  }

  /** The metric of a failed step. */
  function Failure(provider: string, host: string, reason: string): Option<Metric> {
    Some(Metric(provider, host, "failure", reason))
  }

  const NanosPerSecond: int := 1_000_000_000

  /** The cookie that deletes the state cookie: same name and path, MaxAge -1. */
  function DeleteCookie(name: string, secure: bool): (c: Cookie)
    ensures c.name == name && c.value == "" && c.maxAge < 0
    ensures c.path == "/" && c.httpOnly && c.secure == secure && c.sameSite == SameSiteLax
  {
    Cookie(name, "", "/", "", -1, true, secure, SameSiteLax)
  }

  /**
   * The claims of the gateway's token. `now` is the current time in whole
   * seconds and `expiry` a `time.Duration` in nanoseconds; `Unix()` floors,
   * which Dafny's division by a positive number also does.
   */
  function Claims(issuer: string, audience: string, user: OAuth.User, now: int, expiry: int): (c: map<string, Claim>)
    ensures c.Keys == {"iss", "aud", "sub", "email", "exp", "iat"} + (if user.name != "" then {"name"} else {})
    ensures c["sub"] == c["email"] == Str(user.email)
    ensures c["iss"] == Str(issuer) && c["aud"] == Str(audience)
    ensures c["iat"] == Num(now) && c["exp"] == Num(now + expiry / NanosPerSecond)
    ensures user.name != "" ==> c["name"] == Str(user.name)
  {
    var base := map[
      "iss" := Str(issuer),
      "aud" := Str(audience),
      "sub" := Str(user.email),
      "email" := Str(user.email),
      "exp" := Num(now + expiry / NanosPerSecond),
      "iat" := Num(now)];
    if user.name != "" then base["name" := Str(user.name)] else base
  }

  /** `jwt.NewWithClaims(jwt.SigningMethodRS256, claims)` with the `kid` header added. */
  function AppToken(keyID: string, claims: map<string, Claim>): (t: Token)
    ensures t.header.Keys == {"alg", "typ", "kid"}
    ensures t.header["alg"] == "RS256" && t.header["typ"] == "JWT" && t.header["kid"] == keyID
    ensures t.claims == claims
  {
    Token(map["alg" := "RS256", "typ" := "JWT", "kid" := keyID], claims)
  }

  /**
   * The handler. `sign` stands for `SignedString` with the host's key, and
   * `addToken(url, token)` for `url.Parse` followed by adding the `token`
   * query parameter and `String()`; it is None when the URL does not parse.
   * The provider's `exchangeCode` and `getUser` answer with the network's
   * outcome.
   */
  function HandleCallback(s: Server.Server, r: Request, a: Aead, j: Json,
                          sign: (Token, Server.PrivateKey) -> Option<string>,
                          addToken: (string, string) -> Option<string>, now: int): (o: Outcome)
    ensures o.status in {StatusSeeOther, StatusBadRequest, StatusUnauthorized, StatusNotFound, StatusInternalServerError}
    ensures o.status == StatusSeeOther <==> o.metric.Some? && o.metric.value.result == "success"
    ensures o.metric.Some? ==> o.metric.value.provider == r.pathProvider && o.metric.value.host == r.host
    ensures o.location.Some? <==> o.status == StatusSeeOther
    ensures o.token.Some? <==> o.status == StatusSeeOther
    ensures o.cookie.Some? ==>
      o.cookie == Some(DeleteCookie(s.cookieName, IsSecure(r))) &&
      (o.status == StatusSeeOther || o == Outcome(StatusBadRequest, "Failed to parse redirect URL", None, o.cookie, None, None))
  {
    if r.host !in s.hosts then Fail(StatusBadRequest, "Unknown host", None)
    else
      var host := s.hosts[r.host];
      var providerName := r.pathProvider;
      if providerName !in host.providers then Fail(StatusNotFound, LoginHandler.NotFoundBody, None)
      else if s.cookieName !in r.cookies then Fail(StatusBadRequest, "Missing state cookie", None)
      else
        var provider := host.providers[providerName];
        var d := Decrypt(a, j, Utf8(s.cookieSecret), r.cookies[s.cookieName]);
        if d.err.Some? then Fail(StatusBadRequest, "Invalid state cookie", None)
        else if d.state == "" || d.redirect == "" then Fail(StatusBadRequest, "Invalid state cookie", None)
        else if Query(r, "state") != d.state
        then Fail(StatusBadRequest, "State mismatch", Failure(providerName, r.host, "state_mismatch"))
        else if Query(r, "error") != ""
        then Fail(StatusBadRequest, "Authentication failed: " + Query(r, "error"),
                  Failure(providerName, r.host, "user_denied"))
        else if Query(r, "code") == "" then Fail(StatusBadRequest, "Missing code parameter", None)
        else Complete(s, r, host, provider, d.redirect, sign, addToken, now)
  }

  /**
   * The callback after the request's own checks: the code exchange, the
   * user lookup and its email, signing, and adding the token to the stored
   * redirect, which also deletes the state cookie.
   */
  function Complete(s: Server.Server, r: Request, host: Server.HostData, provider: OAuth.Provider, redirect: string,
                    sign: (Token, Server.PrivateKey) -> Option<string>,
                    addToken: (string, string) -> Option<string>, now: int): (o: Outcome)
    ensures o.status in {StatusSeeOther, StatusBadRequest, StatusUnauthorized, StatusInternalServerError}
    ensures o.status == StatusSeeOther <==> o.metric.Some? && o.metric.value.result == "success"
    ensures o.metric.Some? ==> o.metric.value.provider == r.pathProvider && o.metric.value.host == r.host
    ensures o.location.Some? <==> o.status == StatusSeeOther
    ensures o.token.Some? <==> o.status == StatusSeeOther
    ensures o.cookie.Some? ==>
      o.cookie == Some(DeleteCookie(s.cookieName, IsSecure(r))) &&
      (o.status == StatusSeeOther || o == Outcome(StatusBadRequest, "Failed to parse redirect URL", None, o.cookie, None, None))
    ensures o.status == StatusInternalServerError ==>
      o.cookie.None? && o.metric.None? && o.body == "Failed to create authentication token"
  {
    var providerName := r.pathProvider;
    var tokens := provider.exchangeCode(Query(r, "code"), CallbackURL(r, providerName));
    if tokens.Err?
    then Fail(StatusBadRequest, "Failed to exchange authorization code",
              Failure(providerName, r.host, "provider_error"))
    else
      var user := provider.getUser(tokens.value);
      if user.Err?
      then Fail(StatusUnauthorized, "Failed to get user information",
                Failure(providerName, r.host, "provider_error"))
      else if user.value.email == ""
      then Fail(StatusUnauthorized, "User email not available", Failure(providerName, r.host, "email_missing"))
      else
        var token := AppToken(host.jwtKeyID, Claims(Issuer(r), host.jwtAudience, user.value, now, host.jwtExpiry));
        var signed := sign(token, host.signKey);
        if signed.None? then Fail(StatusInternalServerError, "Failed to create authentication token", None)
        else
          var deleteCookie := DeleteCookie(s.cookieName, IsSecure(r));
          var final := addToken(redirect, signed.value);
          if final.None?
          then Outcome(StatusBadRequest, "Failed to parse redirect URL", None, Some(deleteCookie), None, None)
          else Outcome(StatusSeeOther, "", Some(Metric(providerName, r.host, "success", "")),
                       Some(deleteCookie), final, Some(token))
  }

  /**
   * What a successful completion did: the exchange and the user lookup
   * succeeded with an email, the token is the one built for that user, and
   * the location is the redirect with the signed token added.
   */
  lemma CompleteSucceeded(s: Server.Server, r: Request, host: Server.HostData, provider: OAuth.Provider,
                          redirect: string, sign: (Token, Server.PrivateKey) -> Option<string>,
                          addToken: (string, string) -> Option<string>, now: int)
    requires Complete(s, r, host, provider, redirect, sign, addToken, now).status == StatusSeeOther
    ensures var o := Complete(s, r, host, provider, redirect, sign, addToken, now);
      var tokens := provider.exchangeCode(Query(r, "code"), CallbackURL(r, r.pathProvider));
      tokens.Ok? && provider.getUser(tokens.value).Ok? &&
      var user := provider.getUser(tokens.value).value;
      user.email != "" &&
      o.token == Some(AppToken(host.jwtKeyID, Claims(Issuer(r), host.jwtAudience, user, now, host.jwtExpiry))) &&
      DeliversTo(o, redirect, host.signKey, sign, addToken) &&
      o.cookie == Some(DeleteCookie(s.cookieName, IsSecure(r)))
  {
  }

  /** The state cookie decrypts to a non-empty state and redirect. */
  predicate ValidStateCookie(s: Server.Server, r: Request, a: Aead, j: Json) {
    s.cookieName in r.cookies &&
    var d := Decrypt(a, j, Utf8(s.cookieSecret), r.cookies[s.cookieName]);
    d.err.None? && d.state != "" && d.redirect != ""
  }

  /**
   * The failures before the state comparison record no metric, and a state
   * that differs from the cookie's is reported as a mismatch whatever the
   * `error` and `code` parameters say.
   */
  lemma EarlyFailures(s: Server.Server, r: Request, a: Aead, j: Json,
                      sign: (Token, Server.PrivateKey) -> Option<string>,
                      addToken: (string, string) -> Option<string>, now: int)
    ensures var o := HandleCallback(s, r, a, j, sign, addToken, now);
      (r.host !in s.hosts ==> o == Fail(StatusBadRequest, "Unknown host", None)) &&
      (r.host in s.hosts && r.pathProvider !in s.hosts[r.host].providers ==>
         o == Fail(StatusNotFound, LoginHandler.NotFoundBody, None)) &&
      (r.host in s.hosts && r.pathProvider in s.hosts[r.host].providers && !ValidStateCookie(s, r, a, j) ==>
         o.status == StatusBadRequest && o.metric.None? && o.cookie.None?) &&
      (r.host in s.hosts && r.pathProvider in s.hosts[r.host].providers && ValidStateCookie(s, r, a, j) &&
       Query(r, "state") != Decrypt(a, j, Utf8(s.cookieSecret), r.cookies[s.cookieName]).state ==>
         o == Fail(StatusBadRequest, "State mismatch", Failure(r.pathProvider, r.host, "state_mismatch")))
  {
  }

  /** The callback gets past the cookie and the state comparison. */
  predicate StateAccepted(s: Server.Server, r: Request, a: Aead, j: Json) {
    r.host in s.hosts && r.pathProvider in s.hosts[r.host].providers && ValidStateCookie(s, r, a, j) &&
    Query(r, "state") == Decrypt(a, j, Utf8(s.cookieSecret), r.cookies[s.cookieName]).state
  }

  /**
   * After the state check, the provider steps in order: the `error`
   * parameter, the missing code, the exchange (400), the user lookup (401)
   * and the missing email (401), each with its metric reason.
   */
  lemma ProviderFailures(s: Server.Server, r: Request, a: Aead, j: Json,
                         sign: (Token, Server.PrivateKey) -> Option<string>,
                         addToken: (string, string) -> Option<string>, now: int)
    requires StateAccepted(s, r, a, j)
    ensures var o := HandleCallback(s, r, a, j, sign, addToken, now);
      var p := s.hosts[r.host].providers[r.pathProvider];
      var tokens := p.exchangeCode(Query(r, "code"), CallbackURL(r, r.pathProvider));
      (Query(r, "error") != "" ==>
         o == Fail(StatusBadRequest, "Authentication failed: " + Query(r, "error"),
                   Failure(r.pathProvider, r.host, "user_denied"))) &&
      (Query(r, "error") == "" && Query(r, "code") == "" ==>
         o == Fail(StatusBadRequest, "Missing code parameter", None)) &&
      (Query(r, "error") == "" && Query(r, "code") != "" && tokens.Err? ==>
         o.status == StatusBadRequest && o.metric == Failure(r.pathProvider, r.host, "provider_error")) &&
      (Query(r, "error") == "" && Query(r, "code") != "" && tokens.Ok? && p.getUser(tokens.value).Err? ==>
         o.status == StatusUnauthorized && o.metric == Failure(r.pathProvider, r.host, "provider_error")) &&
      (Query(r, "error") == "" && Query(r, "code") != "" && tokens.Ok? && p.getUser(tokens.value).Ok? &&
       p.getUser(tokens.value).value.email == "" ==>
         o.status == StatusUnauthorized && o.metric == Failure(r.pathProvider, r.host, "email_missing"))
  {
  }

  /**
   * A successful callback: every check passed, and the token asserts the
   * user's email as subject and email, the host's audience, the gateway as
   * issuer, `exp` = now + expiry and `iat` = now, carries `name` only when the
   * provider gave one, and names the host's key in `kid`. The browser goes
   * to the cookie's redirect with the signed token added, and the state
   * cookie is deleted.
   */
  lemma SuccessfulCallback(s: Server.Server, r: Request, a: Aead, j: Json,
                           sign: (Token, Server.PrivateKey) -> Option<string>,
                           addToken: (string, string) -> Option<string>, now: int)
    requires HandleCallback(s, r, a, j, sign, addToken, now).status == StatusSeeOther
    ensures var o := HandleCallback(s, r, a, j, sign, addToken, now);
      StateAccepted(s, r, a, j) && Query(r, "error") == "" && Query(r, "code") != "" &&
      var host := s.hosts[r.host];
      var p := host.providers[r.pathProvider];
      var tokens := p.exchangeCode(Query(r, "code"), CallbackURL(r, r.pathProvider));
      tokens.Ok? && p.getUser(tokens.value).Ok? &&
      var user := p.getUser(tokens.value).value;
      user.email != "" &&
      GatewayToken(o.token.value, Issuer(r), host.jwtAudience, host.jwtKeyID, user, now, host.jwtExpiry) &&
      DeliversTo(o, StoredRedirect(s, r, a, j), host.signKey, sign, addToken) &&
      o.cookie == Some(DeleteCookie(s.cookieName, IsSecure(r)))
  {
    var o := HandleCallback(s, r, a, j, sign, addToken, now);
    var host := s.hosts[r.host];
    var p := host.providers[r.pathProvider];
    assert s.cookieName in r.cookies;
    var d := Decrypt(a, j, Utf8(s.cookieSecret), r.cookies[s.cookieName]);
    assert d.err.None? && d.state != "" && d.redirect != "" && Query(r, "state") == d.state;
    assert Query(r, "error") == "" && Query(r, "code") != "";
    assert o == Complete(s, r, host, p, d.redirect, sign, addToken, now);
    CompleteSucceeded(s, r, host, p, d.redirect, sign, addToken, now);
    var tokens := p.exchangeCode(Query(r, "code"), CallbackURL(r, r.pathProvider));
    var user := p.getUser(tokens.value).value;
    ClaimsContents(Issuer(r), host.jwtAudience, user, now, host.jwtKeyID, host.jwtExpiry);
  }

  /**
   * The token the gateway issues for `user`: subject and email are the
   * user's email, the audience and issuer are the given ones, `exp` is `now`
   * plus the expiry in whole seconds and `iat` is `now`, `name` is present
   * exactly when the user has one, no other claim is present, and the header
   * names RS256 and the key.
   */
  predicate GatewayToken(t: Token, issuer: string, audience: string, keyID: string, user: OAuth.User,
                         now: int, expiry: int) {
    var claims := t.claims;
    "sub" in claims && claims["sub"] == Str(user.email) &&
    "email" in claims && claims["email"] == Str(user.email) &&
    "aud" in claims && claims["aud"] == Str(audience) &&
    "iss" in claims && claims["iss"] == Str(issuer) &&
    "exp" in claims && claims["exp"] == Num(now + expiry / NanosPerSecond) &&
    "iat" in claims && claims["iat"] == Num(now) &&
    ("name" in claims <==> user.name != "") &&
    ("name" in claims ==> claims["name"] == Str(user.name)) &&
    claims.Keys <= {"iss", "aud", "sub", "email", "exp", "iat", "name"} &&
    "kid" in t.header && t.header["kid"] == keyID && "alg" in t.header && t.header["alg"] == "RS256"
  }

  /** The claims set and header the handler builds form the gateway's token. */
  lemma ClaimsContents(issuer: string, audience: string, user: OAuth.User, now: int, keyID: string, expiry: int)
    ensures GatewayToken(AppToken(keyID, Claims(issuer, audience, user, now, expiry)),
                         issuer, audience, keyID, user, now, expiry)
  {
  }

  /** A signing failure is a 500 that leaves the state cookie in place and records no metric. */
  lemma SigningFailureKeepsCookie(s: Server.Server, r: Request, a: Aead, j: Json,
                                  sign: (Token, Server.PrivateKey) -> Option<string>,
                                  addToken: (string, string) -> Option<string>, now: int)
    requires HandleCallback(s, r, a, j, sign, addToken, now).status == StatusInternalServerError
    ensures var o := HandleCallback(s, r, a, j, sign, addToken, now);
      o.cookie.None? && o.metric.None? && o.body == "Failed to create authentication token"
  {
  }

  /** The redirect the request's state cookie holds, "" without a cookie. */
  function StoredRedirect(s: Server.Server, r: Request, a: Aead, j: Json): string {
    if s.cookieName in r.cookies then Decrypt(a, j, Utf8(s.cookieSecret), r.cookies[s.cookieName]).redirect else ""
  }

  /** The outcome redirects to `target` with the token, signed with `key`, added. */
  predicate DeliversTo(o: Outcome, target: string, key: Server.PrivateKey,
                       sign: (Token, Server.PrivateKey) -> Option<string>, addToken: (string, string) -> Option<string>) {
    o.token.Some? && sign(o.token.value, key).Some? && o.location == addToken(target, sign(o.token.value, key).value)
  }

  /**
   * The browser's return from the provider: the callback request `rc0` with
   * the state cookie the login response set.
   */
  function WithStateCookie(s: Server.Server, rc0: Request, login: LoginHandler.Response): Request {
    if login.cookie.Some? then rc0.(cookies := rc0.cookies[s.cookieName := login.cookie.value.value]) else rc0
  }

  /**
   * A login response carrying the cookie and a callback that echoes the
   * state handed to the provider: the cookie gives back the stored redirect,
   * the callback gets past the state checks when that redirect is not
   * empty, and on success it redirects there.
   */
  lemma CookieCarriesState(s: Server.Server, rl: Request, provider: OAuth.Provider, stored: string,
                           a: Aead, j: Json, stateEntropy: Option<seq<byte>>, nonceEntropy: Option<seq<byte>>,
                           rc0: Request, sign: (Token, Server.PrivateKey) -> Option<string>,
                           addToken: (string, string) -> Option<string>, now: int)
    requires OpenSeal(a) && JsonRoundTrip(j)
    requires LoginHandler.IssueState(s, rl, provider, stored, a, j, stateEntropy, nonceEntropy).status == StatusFound
    requires rc0.host in s.hosts && rc0.pathProvider in s.hosts[rc0.host].providers
    requires Query(rc0, "state") == GenerateRandomString(LoginHandler.StateLength, stateEntropy)
    ensures var rc := WithStateCookie(s, rc0, LoginHandler.IssueState(s, rl, provider, stored, a, j, stateEntropy, nonceEntropy));
      var o := HandleCallback(s, rc, a, j, sign, addToken, now);
      s.cookieName in rc.cookies && StoredRedirect(s, rc, a, j) == stored &&
      (stored != "" ==> StateAccepted(s, rc, a, j)) &&
      (o.status == StatusSeeOther ==> DeliversTo(o, stored, s.hosts[rc.host].signKey, sign, addToken))
  {
    var login := LoginHandler.IssueState(s, rl, provider, stored, a, j, stateEntropy, nonceEntropy);
    var state := GenerateRandomString(LoginHandler.StateLength, stateEntropy);
    DecryptEncrypt(a, j, Utf8(s.cookieSecret), state, stored, nonceEntropy);
    var rc := WithStateCookie(s, rc0, login);
    assert rc.cookies[s.cookieName] == login.cookie.value.value;
    var o := HandleCallback(s, rc, a, j, sign, addToken, now);
    if o.status == StatusSeeOther {
      SuccessfulCallback(s, rc, a, j, sign, addToken, now);
    }
  }

  /**
   * Login followed by the callback, with the handlers as written: a
   * successful sign-in sends the browser to the `redirect` parameter as it
   * was received, which need not be one the allow-list matches
   * (`LoginHandler.CheckedAndStoredRedirectDiffer`).
   */
  method SignInAsWritten(s: Server.Server, rl: Request, unescape: string -> Option<string>, a: Aead, j: Json,
                         stateEntropy: Option<seq<byte>>, nonceEntropy: Option<seq<byte>>, rc0: Request,
                         sign: (Token, Server.PrivateKey) -> Option<string>,
                         addToken: (string, string) -> Option<string>, now: int)
    returns (login: LoginHandler.Response, callback: Outcome)
    ensures callback == HandleCallback(s, WithStateCookie(s, rc0, login), a, j, sign, addToken, now)
    ensures OpenSeal(a) && JsonRoundTrip(j) && login.status == StatusFound &&
            rc0.host in s.hosts && rc0.pathProvider in s.hosts[rc0.host].providers &&
            Query(rc0, "state") == GenerateRandomString(LoginHandler.StateLength, stateEntropy) ==>
      StateAccepted(s, WithStateCookie(s, rc0, login), a, j) &&
      (callback.status == StatusSeeOther ==>
         DeliversTo(callback, Query(rl, "redirect"), s.hosts[rc0.host].signKey, sign, addToken))
  {
    login := LoginHandler.HandleLogin(s, rl, unescape, a, j, stateEntropy, nonceEntropy);
    var rc := WithStateCookie(s, rc0, login);
    callback := HandleCallback(s, rc, a, j, sign, addToken, now);
    if OpenSeal(a) && JsonRoundTrip(j) && login.status == StatusFound &&
       rc0.host in s.hosts && rc0.pathProvider in s.hosts[rc0.host].providers &&
       Query(rc0, "state") == GenerateRandomString(LoginHandler.StateLength, stateEntropy) {
      LoginHandler.CheckedOutcomes(s, rl, unescape);
      var c := LoginHandler.Checks(s, rl, unescape);
      CookieCarriesState(s, rl, c.provider, c.raw, a, j, stateEntropy, nonceEntropy, rc0, sign, addToken, now);
    }
  }

  /**
   * Login followed by the callback, storing the checked redirect: a
   * successful sign-in sends the browser to a redirect the host's allow-list
   * matches.
   */
  method SignIn(s: Server.Server, rl: Request, unescape: string -> Option<string>, a: Aead, j: Json,
                stateEntropy: Option<seq<byte>>, nonceEntropy: Option<seq<byte>>, rc0: Request,
                sign: (Token, Server.PrivateKey) -> Option<string>,
                addToken: (string, string) -> Option<string>, now: int)
    returns (login: LoginHandler.Response, callback: Outcome)
    ensures callback == HandleCallback(s, WithStateCookie(s, rc0, login), a, j, sign, addToken, now)
    ensures OpenSeal(a) && JsonRoundTrip(j) && login.status == StatusFound &&
            rc0.host in s.hosts && rc0.pathProvider in s.hosts[rc0.host].providers &&
            Query(rc0, "state") == GenerateRandomString(LoginHandler.StateLength, stateEntropy) ==>
      rl.host in s.hosts &&
      var redirect := StoredRedirect(s, WithStateCookie(s, rc0, login), a, j);
      LoginHandler.AllowedRedirect(s.hosts[rl.host].allowedRedirectURLs, redirect) &&
      (callback.status == StatusSeeOther ==> DeliversTo(callback, redirect, s.hosts[rc0.host].signKey, sign, addToken))
  {
    login := LoginHandler.HandleLoginStoringChecked(s, rl, unescape, a, j, stateEntropy, nonceEntropy);
    var rc := WithStateCookie(s, rc0, login);
    callback := HandleCallback(s, rc, a, j, sign, addToken, now);
    if OpenSeal(a) && JsonRoundTrip(j) && login.status == StatusFound &&
       rc0.host in s.hosts && rc0.pathProvider in s.hosts[rc0.host].providers &&
       Query(rc0, "state") == GenerateRandomString(LoginHandler.StateLength, stateEntropy) {
      LoginHandler.CheckedOutcomes(s, rl, unescape);
      var c := LoginHandler.Checks(s, rl, unescape);
      assert login == LoginHandler.IssueState(s, rl, c.provider, c.decoded, a, j, stateEntropy, nonceEntropy);
      assert rc.cookies[s.cookieName] == login.cookie.value.value;
      CookieCarriesState(s, rl, c.provider, c.decoded, a, j, stateEntropy, nonceEntropy, rc0, sign, addToken, now);
    }
  }
}
