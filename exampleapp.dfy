/**
 * The example application behind the gateway: it takes the gateway's token
 * from its callback, verifies it against the key the issuer publishes, and
 * keeps the subject in a session cookie.
 */
module ExampleApp {
  import opened Wrappers
  import opened Text
  import opened Http
  import Base64
  import BigEndian
  import Server
  import Jwks
  import ServerUtils

  const SessionCookieName: string := "session"
  const JwksPath: string := ".well-known/jwks.json"

  // ---------------------------------------------------------------------------
  // Start-up
  // ---------------------------------------------------------------------------

  /**
   * `main` before it serves: each environment variable must be set (in the
   * order PARENT_HOSTNAME, COOKIE_SECRET, APP_PORT), and the secret must be
   * at least 32 bytes. The result is the fatal message, if any.
   */
  function StartupError(parentHostname: string, cookieSecret: string, appPort: string): (e: Option<string>)
    ensures parentHostname == "" ==> e == Some("Environment variable PARENT_HOSTNAME is required but not set")
    ensures e.None? <==>
      parentHostname != "" && cookieSecret != "" && appPort != "" && |Utf8(cookieSecret)| >= 32
    ensures parentHostname != "" && cookieSecret != "" && appPort != "" && |Utf8(cookieSecret)| < 32 ==>
      e == Some("COOKIE_SECRET must be at least 32 characters for security")
  {
    if parentHostname == "" then Some("Environment variable PARENT_HOSTNAME is required but not set")
    else if cookieSecret == "" then Some("Environment variable COOKIE_SECRET is required but not set")
    else if appPort == "" then Some("Environment variable APP_PORT is required but not set")
    else if |Utf8(cookieSecret)| < 32 then Some("COOKIE_SECRET must be at least 32 characters for security")
    else None
  }

  /**
   * The length is counted in bytes: 32 characters always suffice, and 31
   * do when one of them is not ASCII.
   */
  lemma SecretLengthInBytes(parentHostname: string, cookieSecret: string, appPort: string)
    requires parentHostname != "" && appPort != ""
    requires |cookieSecret| >= 32 || (|cookieSecret| == 31 && !IsAscii(cookieSecret))
    ensures StartupError(parentHostname, cookieSecret, appPort).None?
  {
    Utf8Length(cookieSecret);
  }

  // ---------------------------------------------------------------------------
  // Finding the issuer's key
  // ---------------------------------------------------------------------------

  /** A raw RSA public key, as `key.Raw(&rsaKey)` fills it. */
  datatype RsaPublicKey = RsaPublicKey(n: nat, e: nat)

  /** The JWKS URL of an issuer: the issuer, a '/' unless it ends with one, then `.well-known/jwks.json`. */
  function JwksURL(issuer: string): (u: string)
    ensures HasSuffix(issuer, "/") ==> u == issuer + JwksPath
    ensures !HasSuffix(issuer, "/") ==> u == issuer + "/" + JwksPath
  {
    (if HasSuffix(issuer, "/") then issuer else issuer + "/") + JwksPath
  }

  /**
   * `key.Raw`: the modulus and exponent decoded from base64url and read as
   * big-endian integers; None when either does not decode.
   */
  function Extract(key: Jwks.Jwk): (r: Option<RsaPublicKey>)
    ensures r.Some? <==> Base64.DecodeRaw(key.n).Some? && Base64.DecodeRaw(key.e).Some?
    ensures r.Some? ==>
      r.value.n == BigEndian.FromBytes(Base64.DecodeRaw(key.n).value) &&
      r.value.e == BigEndian.FromBytes(Base64.DecodeRaw(key.e).value)
  {
    var n := Base64.DecodeRaw(key.n);
    var e := Base64.DecodeRaw(key.e);
    if n.Some? && e.Some? then Some(RsaPublicKey(BigEndian.FromBytes(n.value), BigEndian.FromBytes(e.value)))
    else None
  }

  /** A key the loop considers: RSA, and either meant for RS256 or for signatures. */
  predicate Suitable(key: Jwks.Jwk) {
    key.kty == "RSA" && (key.alg == "RS256" || key.use == "sig")
  }

  /** The first suitable key that extracts, in the order of the set. */
  function FirstSuitable(keys: seq<Jwks.Jwk>): (r: Option<RsaPublicKey>)
    ensures r.Some? <==> exists i :: 0 <= i < |keys| && Suitable(keys[i]) && Extract(keys[i]).Some?
    ensures r.Some? ==> exists i :: 0 <= i < |keys| && Suitable(keys[i]) && r == Extract(keys[i]) &&
                                    forall k :: 0 <= k < i ==> !(Suitable(keys[k]) && Extract(keys[k]).Some?)
  {
    if keys == [] then None
    else if Suitable(keys[0]) && Extract(keys[0]).Some? then Extract(keys[0])
    else
      var r := FirstSuitable(keys[1..]);
      assert forall i :: 1 <= i < |keys| ==> keys[i] == keys[1..][i - 1];
      r
  }

  /** What `fetchPublicKey` returns for the key set `jwk.Fetch` answers with. */
  function PublicKeyFor(fetched: Result<seq<Jwks.Jwk>, string>): (r: Result<RsaPublicKey, string>)
    ensures fetched.Err? ==> r == Err("failed to fetch JWKS: " + fetched.error)
    ensures fetched.Ok? ==>
      (r.Ok? <==> exists i :: 0 <= i < |fetched.value| && Suitable(fetched.value[i]) && Extract(fetched.value[i]).Some?)
    ensures r.Ok? ==> exists i :: 0 <= i < |fetched.value| && Suitable(fetched.value[i]) &&
                                   Extract(fetched.value[i]) == Some(r.value)
    ensures fetched.Ok? && r.Err? ==> r.error == "no suitable RSA key found in JWKS"
  {
    if fetched.Err? then Err("failed to fetch JWKS: " + fetched.error)
    else
      var k := FirstSuitable(fetched.value);
      if k.Some? then Ok(k.value) else Err("no suitable RSA key found in JWKS")
  }

  /**
   * `fetchPublicKey(issuer)`: builds the JWKS URL, fetches the set
   * (`fetch` stands for `jwk.Fetch`), and returns the first suitable key
   * that extracts.
   */
  method FetchPublicKey(issuer: string, fetch: string -> Result<seq<Jwks.Jwk>, string>)
    returns (r: Result<RsaPublicKey, string>)
    ensures r == PublicKeyFor(fetch(JwksURL(issuer)))
  {
    var wellKnownURL := issuer;
    if !HasSuffix(wellKnownURL, "/") {
      wellKnownURL := wellKnownURL + "/";
    }
    wellKnownURL := wellKnownURL + JwksPath;

    var jwks := fetch(wellKnownURL);
    if jwks.Err? {
      return Err("failed to fetch JWKS: " + jwks.error);
    }
    var keys := jwks.value;
    var i := 0;
    while i < |keys|
      invariant 0 <= i <= |keys|
      invariant FirstSuitable(keys[i..]) == FirstSuitable(keys)
    {
      var key := keys[i];
      assert keys[i..][0] == key && keys[i..][1..] == keys[i + 1..];
      if Suitable(key) {
        var rsaKey := Extract(key);
        if rsaKey.Some? {
          return Ok(rsaKey.value);
        }
      }
      i := i + 1;
    }
    r := Err("no suitable RSA key found in JWKS");
  }

  /** The gateway's key set yields the gateway's signing key: its modulus and exponent. */
  lemma GatewayKeySelected(host: Server.HostData)
    ensures PublicKeyFor(Ok([Jwks.KeyOf(host)])) == Ok(RsaPublicKey(host.signKey.n, host.signKey.e))
  {
    var k := Jwks.KeyOf(host);
    BigEndian.FromToBytes(host.signKey.n);
    BigEndian.FromToBytes(host.signKey.e);
    assert Suitable(k);
    assert Extract(k) == Some(RsaPublicKey(host.signKey.n, host.signKey.e));
    assert [k][1..] == [];
  }

  /**
   * The JWKS URL the application derives from the gateway's issuer is the
   * gateway's JWKS route on the same host.
   */
  lemma JwksURLOfGateway(r: Request)
    requires r.host != "" && r.host[|r.host| - 1] != '/'
    ensures JwksURL(ServerUtils.Issuer(r)) == ServerUtils.Issuer(r) + "/.well-known/jwks.json"
  {
    var issuer := ServerUtils.Issuer(r);
    assert issuer == (ServerUtils.Scheme(r) + "://") + r.host;
    assert issuer[|issuer| - 1] == r.host[|r.host| - 1];
    assert issuer[|issuer| - 1..] == [issuer[|issuer| - 1]];
  }

  // ---------------------------------------------------------------------------
  // JWTVerify
  // ---------------------------------------------------------------------------

  /** A claim value as decoded from the token's JSON. */
  datatype JsonValue = JStr(s: string) | JNum(n: int) | JOther

  type Claims = map<string, JsonValue>

  /**
   * What `JWTVerify` calls out to: `ParseUnverified` (the claims, or an
   * error); `url.Parse(issuer).Hostname()`; `jwk.Fetch`; and `jwt.Parse`
   * with the key and RS256 only, whose success means a valid token.
   */
  datatype Services = Services(
    parseUnverified: string -> Result<Claims, string>,
    hostname: string -> Result<string, string>,
    fetch: string -> Result<seq<Jwks.Jwk>, string>,
    parse: (string, RsaPublicKey) -> Result<Claims, string>)

  /** `GetIssuer` and `GetSubject`: "" when absent, an error when not a string. */
  function StringClaim(c: Claims, name: string): (r: Result<string, string>)
    ensures name !in c ==> r == Ok("")
    ensures r.Err? <==> name in c && !c[name].JStr?
    ensures r.Err? ==> r.error == name + " is invalid"
    ensures r.Ok? && r.value != "" ==> name in c && c[name] == JStr(r.value)
  {
    if name !in c then Ok("")
    else if c[name].JStr? then Ok(c[name].s)
    else Err(name + " is invalid")
  }

  /**
   * The issuer check as written: the issuer's host name ends with the
   * parent host name, as a plain string suffix.
   */
  predicate TrustedAsWritten(issuerHostname: string, parentHostname: string) {
    HasSuffix(issuerHostname, parentHostname)
  }

  /** The issuer check as intended: the parent host itself or a name below it. */
  predicate Trusted(issuerHostname: string, parentHostname: string) {
    issuerHostname == parentHostname || HasSuffix(issuerHostname, "." + parentHostname)
  }

  /**
   * The check chain of `JWTVerify`, with the issuer test `trusted`: empty
   * token, malformed token, issuer claim, issuer URL, trusted issuer (all
   * before any key is fetched), the key, the signature, the expiry, and the
   * subject, which is the result. `now` is the current time in seconds.
   */
  function Verify(tokenStr: string, parentHostname: string, s: Services, now: int,
                  trusted: (string, string) -> bool): (r: Result<string, string>)
    ensures tokenStr == "" ==> r == Err("empty token")
    ensures tokenStr != "" && s.parseUnverified(tokenStr).Err? ==>
      r == Err("invalid token format: " + s.parseUnverified(tokenStr).error)
    ensures tokenStr != "" && s.parseUnverified(tokenStr).Ok? ==>
      var issuer := StringClaim(s.parseUnverified(tokenStr).value, "iss");
      (issuer.Err? || issuer.value == "" ==> r == Err("invalid issuer claim")) &&
      ((issuer.Ok? && issuer.value != "" && s.hostname(issuer.value).Ok? &&
        !trusted(s.hostname(issuer.value).value, parentHostname)) ==> r == Err("not trusted issuer"))
    ensures r.Ok? ==> r.value != ""
  {
    if tokenStr == "" then Err("empty token")
    else
      var unverified := s.parseUnverified(tokenStr);
      if unverified.Err? then Err("invalid token format: " + unverified.error)
      else
        var issuer := StringClaim(unverified.value, "iss");
        if issuer.Err? || issuer.value == "" then Err("invalid issuer claim")
        else
          var host := s.hostname(issuer.value);
          if host.Err? then Err("invalid issuer URL: " + host.error)
          else if !trusted(host.value, parentHostname) then Err("not trusted issuer")
          else
            VerifySigned(tokenStr, issuer.value, s, now)
  }

  /**
   * The checks after the issuer is trusted: the issuer's key, the signature
   * checked with it, the expiry, and the subject, which is the result.
   */
  function VerifySigned(tokenStr: string, issuer: string, s: Services, now: int): (r: Result<string, string>)
    ensures var key := PublicKeyFor(s.fetch(JwksURL(issuer)));
      key.Err? ==> r == Err("failed to fetch public key: " + key.error)
    ensures r.Ok? ==>
      var key := PublicKeyFor(s.fetch(JwksURL(issuer)));
      key.Ok? && s.parse(tokenStr, key.value).Ok? &&
      var claims := s.parse(tokenStr, key.value).value;
      "exp" in claims && claims["exp"].JNum? && claims["exp"].n >= now &&
      "sub" in claims && claims["sub"] == JStr(r.value) && r.value != ""
  {
    var key := PublicKeyFor(s.fetch(JwksURL(issuer)));
    if key.Err? then Err("failed to fetch public key: " + key.error)
    else
      var token := s.parse(tokenStr, key.value);
      if token.Err? then Err("invalid token: " + token.error)
      else
        var claims := token.value;
        if "exp" !in claims || !claims["exp"].JNum? || claims["exp"].n < now then Err("token expired")
        else
          var sub := StringClaim(claims, "sub");
          if sub.Err? || sub.value == "" then Err("invalid subject claim")
          else Ok(sub.value)
  }

  /** `JWTVerify` as written. */
  function JWTVerifyAsWritten(tokenStr: string, parentHostname: string, s: Services, now: int): (r: Result<string, string>)
    ensures r.Ok? ==>
      tokenStr != "" && s.parseUnverified(tokenStr).Ok? &&
      var issuer := StringClaim(s.parseUnverified(tokenStr).value, "iss");
      issuer.Ok? && issuer.value != "" && s.hostname(issuer.value).Ok? &&
      TrustedAsWritten(s.hostname(issuer.value).value, parentHostname) &&
      r == VerifySigned(tokenStr, issuer.value, s, now)
  {
    Verify(tokenStr, parentHostname, s, now, TrustedAsWritten)
  }

  /**
   * `JWTVerify` with the intended issuer check: a token is accepted only
   * when its issuer's host is the parent host or a name below it.
   */
  function JWTVerify(tokenStr: string, parentHostname: string, s: Services, now: int): (r: Result<string, string>)
    ensures r.Ok? ==>
      tokenStr != "" && s.parseUnverified(tokenStr).Ok? &&
      var issuer := StringClaim(s.parseUnverified(tokenStr).value, "iss");
      issuer.Ok? && issuer.value != "" && s.hostname(issuer.value).Ok? &&
      Trusted(s.hostname(issuer.value).value, parentHostname) &&
      r == VerifySigned(tokenStr, issuer.value, s, now)
  {
    Verify(tokenStr, parentHostname, s, now, Trusted)
  }

  /**
   * What a verified token satisfies: its issuer claim is present, parses,
   * and names a trusted host, and the token passes the signed checks for
   * that issuer. An untrusted issuer is refused before any key is fetched,
   * whatever the key server would answer.
   */
  lemma VerifiedMeans(tokenStr: string, parentHostname: string, s: Services, now: int,
                      trusted: (string, string) -> bool, fetch: string -> Result<seq<Jwks.Jwk>, string>)
    ensures var r := Verify(tokenStr, parentHostname, s, now, trusted);
      r.Ok? ==>
        tokenStr != "" && s.parseUnverified(tokenStr).Ok? &&
        var issuer := StringClaim(s.parseUnverified(tokenStr).value, "iss");
        issuer.Ok? && issuer.value != "" && s.hostname(issuer.value).Ok? &&
        trusted(s.hostname(issuer.value).value, parentHostname) &&
        r == VerifySigned(tokenStr, issuer.value, s, now)
    ensures tokenStr != "" && s.parseUnverified(tokenStr).Ok? ==>
      var issuer := StringClaim(s.parseUnverified(tokenStr).value, "iss");
      issuer.Ok? && issuer.value != "" && s.hostname(issuer.value).Ok? &&
      !trusted(s.hostname(issuer.value).value, parentHostname) ==>
        Verify(tokenStr, parentHostname, s, now, trusted) == Err("not trusted issuer") &&
        Verify(tokenStr, parentHostname, s.(fetch := fetch), now, trusted) == Err("not trusted issuer")
  {
  }

  /**
   * What the signed checks accept: the signature verified with the first
   * suitable key the issuer publishes, an expiry not before now, and a
   * non-empty subject, which is returned.
   */
  lemma SignedMeans(tokenStr: string, issuer: string, s: Services, now: int)
    ensures var r := VerifySigned(tokenStr, issuer, s, now);
      r.Ok? <==>
        var key := PublicKeyFor(s.fetch(JwksURL(issuer)));
        key.Ok? && s.parse(tokenStr, key.value).Ok? &&
        var claims := s.parse(tokenStr, key.value).value;
        "exp" in claims && claims["exp"].JNum? && claims["exp"].n >= now &&
        "sub" in claims && claims["sub"].JStr? && claims["sub"].s != ""
    ensures var r := VerifySigned(tokenStr, issuer, s, now);
      r.Ok? ==> r.value == s.parse(tokenStr, PublicKeyFor(s.fetch(JwksURL(issuer))).value).value["sub"].s
  {
  }

  /** The intended check is stricter than the one written, and accepts the parent's subdomains. */
  lemma TrustedIsStricter(issuerHostname: string, parentHostname: string, sub: string)
    ensures Trusted(issuerHostname, parentHostname) ==> TrustedAsWritten(issuerHostname, parentHostname)
    ensures Trusted(sub + "." + parentHostname, parentHostname)
  {
    if HasSuffix(issuerHostname, "." + parentHostname) {
      var d := "." + parentHostname;
      assert issuerHostname[|issuerHostname| - |d|..][1..] == parentHostname;
      assert issuerHostname[|issuerHostname| - |parentHostname|..] == issuerHostname[|issuerHostname| - |d|..][1..];
    }
    var h := sub + "." + parentHostname;
    assert h[|h| - |"." + parentHostname|..] == "." + parentHostname;
  }

  /**
   * Where the two issuer checks disagree, a token that passes every other
   * check is accepted as written and refused as intended: a host that ends
   * with the parent's letters without being below it gets its tokens
   * accepted. `LookalikeHost` gives such a host.
   */
  lemma LookalikeIssuerAccepted(tokenStr: string, parentHostname: string, s: Services, now: int,
                                issuer: string, issuerHostname: string)
    requires TrustedAsWritten(issuerHostname, parentHostname) && !Trusted(issuerHostname, parentHostname)
    requires tokenStr != "" && s.parseUnverified(tokenStr).Ok?
    requires StringClaim(s.parseUnverified(tokenStr).value, "iss") == Ok(issuer) && issuer != ""
    requires s.hostname(issuer) == Ok(issuerHostname)
    ensures JWTVerify(tokenStr, parentHostname, s, now) == Err("not trusted issuer")
    ensures JWTVerifyAsWritten(tokenStr, parentHostname, s, now) == VerifySigned(tokenStr, issuer, s, now)
  {
  }

  /** "evilexample.com" ends with "example.com" but is not a name below it. */
  lemma LookalikeHost()
    ensures var h, p := "evilexample.com", "example.com"; TrustedAsWritten(h, p) && !Trusted(h, p)
  {
    var h := "evilexample.com";
    assert h[|h| - |"example.com"|..] == "example.com";
    assert h[|h| - |".example.com"|..][0] == 'l';
    assert |h| != |"example.com"|;
  }

  // ---------------------------------------------------------------------------
  // handleCallback
  // ---------------------------------------------------------------------------

  /** What the application's callback writes. */
  datatype AppResponse = AppResponse(status: int, body: string, cookie: Option<Cookie>, location: Option<string>)

  /** The session cookie: the encoded email, for the request's host, secure, one hour. */
  function SessionCookie(value: string, domain: string): (c: Cookie)
    ensures c.name == SessionCookieName && c.value == value && c.domain == domain
    ensures c.path == "/" && c.httpOnly && c.secure && c.sameSite == SameSiteLax && c.maxAge == 3600
  {
    Cookie(SessionCookieName, value, "/", domain, 3600, true, true, SameSiteLax)
  }

  /**
   * `handleCallback` with the issuer test `trusted` handed to `JWTVerify`;
   * `encode` stands for `securecookie.Encode` of the email. No token is a
   * 400, a token that does not verify a 401, an encoding failure a 500;
   * otherwise the session cookie is set and the browser sent to "/".
   */
  function HandleCallbackWith(r: Request, parentHostname: string, s: Services, now: int,
                              trusted: (string, string) -> bool,
                              encode: string -> Result<string, string>): (resp: AppResponse)
    ensures Query(r, "token") == "" ==> resp == AppResponse(StatusBadRequest, "Missing token parameter", None, None)
    ensures resp.cookie.Some? <==> resp.status == StatusFound
    ensures var v := Verify(Query(r, "token"), parentHostname, s, now, trusted);
      resp.status == StatusFound <==> Query(r, "token") != "" && v.Ok? && encode(v.value).Ok?
    ensures var v := Verify(Query(r, "token"), parentHostname, s, now, trusted);
      resp.status == StatusFound ==>
        resp.location == Some("/") && resp.cookie == Some(SessionCookie(encode(v.value).value, r.host))
    ensures Query(r, "token") != "" && Verify(Query(r, "token"), parentHostname, s, now, trusted).Err? ==>
      resp == AppResponse(StatusUnauthorized, "Invalid token", None, None)
  {
    var token := Query(r, "token");
    if token == "" then AppResponse(StatusBadRequest, "Missing token parameter", None, None)
    else
      var email := Verify(token, parentHostname, s, now, trusted);
      if email.Err? then AppResponse(StatusUnauthorized, "Invalid token", None, None)
      else
        var encoded := encode(email.value);
        if encoded.Err? then AppResponse(StatusInternalServerError, "Internal server error", None, None)
        else AppResponse(StatusFound, "", Some(SessionCookie(encoded.value, r.host)), Some("/"))
  }

  /**
   * `handleCallback` as written: a session is granted exactly for a token
   * that `JWTVerify` as written accepts and whose email encodes.
   */
  function HandleCallback(r: Request, parentHostname: string, s: Services, now: int,
                          encode: string -> Result<string, string>): (resp: AppResponse)
    ensures var v := JWTVerifyAsWritten(Query(r, "token"), parentHostname, s, now);
      resp.status == StatusFound <==> Query(r, "token") != "" && v.Ok? && encode(v.value).Ok?
    ensures var v := JWTVerifyAsWritten(Query(r, "token"), parentHostname, s, now);
      resp.status == StatusFound ==> resp.cookie == Some(SessionCookie(encode(v.value).value, r.host))
  {
    HandleCallbackWith(r, parentHostname, s, now, TrustedAsWritten, encode)
  }

  /**
   * `handleCallback` over the intended issuer check: a session is granted
   * only for a token whose issuer's host is the parent host or below it.
   */
  function HandleCallbackChecked(r: Request, parentHostname: string, s: Services, now: int,
                                 encode: string -> Result<string, string>): (resp: AppResponse)
    ensures var v := JWTVerify(Query(r, "token"), parentHostname, s, now);
      resp.status == StatusFound <==> Query(r, "token") != "" && v.Ok? && encode(v.value).Ok?
    ensures resp.status == StatusFound ==>
      var unverified := s.parseUnverified(Query(r, "token"));
      unverified.Ok? &&
      var issuer := StringClaim(unverified.value, "iss");
      issuer.Ok? && s.hostname(issuer.value).Ok? && Trusted(s.hostname(issuer.value).value, parentHostname)
  {
    HandleCallbackWith(r, parentHostname, s, now, Trusted, encode)
  }

  /**
   * The lookalike issuer end to end: a token from a host that only ends with
   * the parent's letters, signed by that host's own key, gets a session
   * cookie from the callback as written and a 401 from the corrected one.
   */
  lemma LookalikeSessionGranted(r: Request, parentHostname: string, s: Services, now: int,
                                encode: string -> Result<string, string>, issuer: string, issuerHostname: string)
    requires TrustedAsWritten(issuerHostname, parentHostname) && !Trusted(issuerHostname, parentHostname)
    requires Query(r, "token") != "" && s.parseUnverified(Query(r, "token")).Ok?
    requires StringClaim(s.parseUnverified(Query(r, "token")).value, "iss") == Ok(issuer) && issuer != ""
    requires s.hostname(issuer) == Ok(issuerHostname)
    requires VerifySigned(Query(r, "token"), issuer, s, now).Ok?
    requires encode(VerifySigned(Query(r, "token"), issuer, s, now).value).Ok?
    ensures HandleCallback(r, parentHostname, s, now, encode).status == StatusFound
    ensures HandleCallback(r, parentHostname, s, now, encode).cookie.Some?
    ensures HandleCallbackChecked(r, parentHostname, s, now, encode) ==
      AppResponse(StatusUnauthorized, "Invalid token", None, None)
  {
    LookalikeIssuerAccepted(Query(r, "token"), parentHostname, s, now, issuer, issuerHostname);
  }

  /** `handleLogout`: the session cookie is overwritten with an expired empty one, and the browser sent to "/". */
  function HandleLogout(r: Request): (resp: AppResponse)
    ensures resp.status == StatusFound && resp.location == Some("/")
    ensures resp.cookie.Some? && resp.cookie.value.name == SessionCookieName && resp.cookie.value.value == ""
    ensures resp.cookie.value.maxAge < 0 && resp.cookie.value.domain == r.host && resp.cookie.value.path == "/"
    ensures resp.cookie.value.secure && resp.cookie.value.httpOnly && resp.cookie.value.sameSite == SameSiteLax
  {
    AppResponse(StatusFound, "", Some(Cookie(SessionCookieName, "", "/", r.host, -1, true, true, SameSiteLax)), Some("/"))
  }

  /**
   * `redirectToLANA`: the gateway's page on `auth.<parent>`, with this
   * application's callback as the query-escaped `redirect` parameter.
   * `queryEscape` stands for `url.QueryEscape`.
   */
  function LoginRedirect(r: Request, parentHostname: string, queryEscape: string -> string): (resp: AppResponse)
    ensures resp.status == StatusFound && resp.cookie.None?
    ensures resp.location == Some("https://auth." + parentHostname + "?redirect=" + queryEscape("https://" + r.host + "/callback"))
  {
    AppResponse(StatusFound, "", None,
                Some("https://auth." + parentHostname + "?redirect=" + queryEscape("https://" + r.host + "/callback")))
  }

  /**
   * The gateway host the application sends its users to is one it trusts as
   * an issuer, under the intended check and the one written.
   */
  lemma LoginHostTrusted(parentHostname: string)
    ensures Trusted("auth." + parentHostname, parentHostname)
    ensures TrustedAsWritten("auth." + parentHostname, parentHostname)
  {
    TrustedIsStricter("auth." + parentHostname, parentHostname, "auth");
    assert "auth" + "." + parentHostname == "auth." + parentHostname;
  }
}
