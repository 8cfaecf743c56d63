/**
 * The Google provider: OpenID Connect against accounts.google.com. The user
 * comes from the verified ID token's claims, completed from the userinfo
 * endpoint when the claims lack the name or the email.
 */
module Google {
  import opened Wrappers
  import opened Text
  import Config
  import OAuth
  import OAuth2

  const Name: string := "google"
  const IssuerURL: string := "https://accounts.google.com"
  const UserInfoURL: string := "https://www.googleapis.com/oauth2/v3/userinfo"

  /** The userinfo body is read through `io.LimitReader(body, 1<<20)`. */
  const MaxUserInfoBody: nat := 0x10_0000

  /** A verified ID token; what is in it is only reached through `claims`. */
  datatype IdToken = IdToken(raw: string)

  /** The claims `GetUser` reads from the ID token. */
  datatype IdClaims = IdClaims(email: string, emailVerified: bool, name: string, sub: string)

  /** The userinfo document. */
  datatype UserInfo = UserInfo(email: string, name: string)

  /** `Provider`: the oauth2 client configuration and the client ID the verifier checks. */
  datatype GoogleProvider = GoogleProvider(config: OAuth2.Config, clientID: string)

  /**
   * What the provider calls out to: the oauth2 client; the OIDC verifier
   * (`verify(clientID, rawIDToken)`) and its claims decoding; the userinfo
   * request (`send(url, authorization)`, request creation and transport
   * together); and JSON decoding of the userinfo body.
   */
  datatype Services = Services(
    client: OAuth2.Client,
    verify: (string, string) -> Result<IdToken, string>,
    claims: IdToken -> Result<IdClaims, string>,
    send: (string, string) -> Result<OAuth2.ClientResponse, string>,
    unmarshal: seq<byte> -> Result<UserInfo, string>)

  /**
   * `New`: `discovery` is the error of OIDC discovery at the issuer, if any.
   * The configuration asks for the email and profile scopes and has no
   * redirect URL; the handlers give one per call.
   */
  function New(pc: Config.OAuthProvider, discovery: Option<string>): (r: Result<GoogleProvider, string>)
    ensures discovery.Some? <==> r.Err?
    ensures discovery.Some? ==> r.error == "failed to initialize OIDC provider: " + discovery.value
    ensures r.Ok? ==>
      r.value.config.clientID == pc.clientID && r.value.config.clientSecret == pc.clientSecret &&
      r.value.config.scopes == ["email", "profile"] && r.value.config.redirectURL == "" &&
      r.value.clientID == pc.clientID
  {
    if discovery.Some? then Err("failed to initialize OIDC provider: " + discovery.value)
    else Ok(GoogleProvider(OAuth2.Config(pc.clientID, pc.clientSecret, ["email", "profile"], Name, ""), pc.clientID))
  }

  /** `GetAuthURL`: the consent URL for offline access with forced approval, built on a copy. */
  function GetAuthURL(p: GoogleProvider, s: Services, state: string, redirectURL: string): (url: string)
    ensures url == s.client.authCodeURL(p.config.(redirectURL := redirectURL), state,
                                        [OAuth2.AccessTypeOffline, OAuth2.ApprovalForce])
  {
    s.client.authCodeURL(OAuth2.WithRedirect(p.config, redirectURL), state,
                         [OAuth2.AccessTypeOffline, OAuth2.ApprovalForce])
  }

  /** `ExchangeCode`: the exchange on a copy with the redirect URL; the ID token goes along when present. */
  function ExchangeCode(p: GoogleProvider, s: Services, code: string, redirectURL: string): (r: Result<OAuth.TokenResponse, string>)
    ensures var t := s.client.exchange(OAuth2.WithRedirect(p.config, redirectURL), code);
      (t.Err? <==> r.Err?) &&
      (t.Err? ==> r.error == "failed to exchange auth code: " + t.error) &&
      (t.Ok? ==>
         r.value.accessToken == t.value.accessToken && r.value.tokenType == t.value.tokenType &&
         r.value.refreshToken == t.value.refreshToken && r.value.expiresIn == t.value.expiresIn &&
         r.value.idToken == (if t.value.idToken.Some? then t.value.idToken.value else ""))
  {
    var t := s.client.exchange(OAuth2.WithRedirect(p.config, redirectURL), code);
    if t.Err? then Err("failed to exchange auth code: " + t.error)
    else
      var idToken := if t.value.idToken.Some? then t.value.idToken.value else "";
      Ok(OAuth.TokenResponse(t.value.accessToken, t.value.tokenType, t.value.refreshToken, idToken, t.value.expiresIn))
  }

  /** The provider's calls see only the redirect URL they are given, never the one stored in its configuration. */
  lemma StoredRedirectIgnored(p: GoogleProvider, s: Services, stored: string, state: string, code: string, redirectURL: string)
    ensures var q := p.(config := p.config.(redirectURL := stored));
      GetAuthURL(q, s, state, redirectURL) == GetAuthURL(p, s, state, redirectURL) &&
      ExchangeCode(q, s, code, redirectURL) == ExchangeCode(p, s, code, redirectURL)
  {
    var q := p.(config := p.config.(redirectURL := stored));
    assert OAuth2.WithRedirect(q.config, redirectURL) == OAuth2.WithRedirect(p.config, redirectURL);
  }

  /**
   * `fetchUserInfo`: a GET of the userinfo endpoint with the bearer token.
   * A status other than 200 is an error; the body is read up to
   * `MaxUserInfoBody` octets and decoded. The response's body is the
   * outcome of reading it whole; an error there stands for a read error
   * within the first `MaxUserInfoBody` octets, the only part the source
   * reads.
   */
  function FetchUserInfo(s: Services, accessToken: string): (r: Result<UserInfo, string>)
    ensures var resp := s.send(UserInfoURL, "Bearer " + accessToken);
      (resp.Err? ==> r == Err(resp.error)) &&
      (resp.Ok? && resp.value.status != 200 ==>
         r == Err("userinfo request failed: status " + Itoa(resp.value.status))) &&
      (resp.Ok? && resp.value.status == 200 && resp.value.body.Err? ==> r == Err(resp.value.body.error)) &&
      (resp.Ok? && resp.value.status == 200 && resp.value.body.Ok? ==>
         var b := resp.value.body.value;
         r == s.unmarshal(if |b| <= MaxUserInfoBody then b else b[..MaxUserInfoBody]))
  {
    var resp := s.send(UserInfoURL, "Bearer " + accessToken);
    if resp.Err? then Err(resp.error)
    else if resp.value.status != 200 then Err("userinfo request failed: status " + Itoa(resp.value.status))
    else if resp.value.body.Err? then Err(resp.value.body.error)
    else
      var b := resp.value.body.value;
      s.unmarshal(if |b| <= MaxUserInfoBody then b else b[..MaxUserInfoBody])
  }

  /** A field from the claims, or from userinfo when the claim is empty. */
  function Fill(claim: string, info: string): (v: string)
    ensures claim != "" ==> v == claim
    ensures claim == "" ==> v == info
  {
    if claim != "" then claim else info
  }

  /** Userinfo is consulted only when a claim is missing and there is an access token to ask with. */
  predicate NeedsUserInfo(c: IdClaims, tokens: OAuth.TokenResponse) {
    (c.name == "" || c.email == "") && tokens.accessToken != ""
  }

  /** The user `GetUser` resolves: what it returns, stated field by field. */
  function ResolveUser(p: GoogleProvider, s: Services, tokens: OAuth.TokenResponse): (r: Result<OAuth.User, string>)
    ensures tokens.idToken == "" ==> r == Err("id_token not found in OAuth response")
    ensures r.Ok? ==>
      tokens.idToken != "" && s.verify(p.clientID, tokens.idToken).Ok? &&
      var c := s.claims(s.verify(p.clientID, tokens.idToken).value);
      c.Ok? && c.value.emailVerified && r.value.id == c.value.sub &&
      (c.value.email != "" ==> r.value.email == c.value.email) &&
      (c.value.name != "" ==> r.value.name == c.value.name)
  {
    if tokens.idToken == "" then Err("id_token not found in OAuth response")
    else
      var verified := s.verify(p.clientID, tokens.idToken);
      if verified.Err? then Err("failed to verify ID token: " + verified.error)
      else
        var c := s.claims(verified.value);
        if c.Err? then Err("failed to parse claims: " + c.error)
        else if !c.value.emailVerified then Err("email not verified")
        else if !NeedsUserInfo(c.value, tokens) then Ok(OAuth.User(c.value.email, c.value.name, c.value.sub))
        else
          var info := FetchUserInfo(s, tokens.accessToken);
          if info.Err? then Err("failed to fetch user info: " + info.error)
          else Ok(OAuth.User(Fill(c.value.email, info.value.email), Fill(c.value.name, info.value.name), c.value.sub))
  }

  /**
   * `GetUser`: the user is built from the claims, then its empty email and
   * name are overwritten from userinfo when that is fetched.
   */
  method GetUser(p: GoogleProvider, s: Services, tokens: OAuth.TokenResponse) returns (r: Result<OAuth.User, string>)
    ensures r == ResolveUser(p, s, tokens)
  {
    if tokens.idToken == "" {
      return Err("id_token not found in OAuth response");
    }
    var idToken := s.verify(p.clientID, tokens.idToken);
    if idToken.Err? {
      return Err("failed to verify ID token: " + idToken.error);
    }
    var claims := s.claims(idToken.value);
    if claims.Err? {
      return Err("failed to parse claims: " + claims.error);
    }
    if !claims.value.emailVerified {
      return Err("email not verified");
    }
    var user := OAuth.User(claims.value.email, claims.value.name, claims.value.sub);
    if (claims.value.name == "" || claims.value.email == "") && tokens.accessToken != "" {
      var userInfo := FetchUserInfo(s, tokens.accessToken);
      if userInfo.Err? {
        return Err("failed to fetch user info: " + userInfo.error);
      }
      if user.email == "" && userInfo.value.email != "" {
        user := user.(email := userInfo.value.email);
      }
      if user.name == "" && userInfo.value.name != "" {
        user := user.(name := userInfo.value.name);
      }
    }
    r := Ok(user);
  }

  /** An empty ID token fails whatever the verifier and the other services would answer. */
  lemma NoIdTokenFailsFirst(p: GoogleProvider, s: Services, s2: Services, tokens: OAuth.TokenResponse)
    requires tokens.idToken == ""
    ensures ResolveUser(p, s, tokens) == ResolveUser(p, s2, tokens) == Err("id_token not found in OAuth response")
  {
  }

  /**
   * The outcome of a resolved ID token: a verification or claims failure is
   * an error, an unverified email is an error, and a resolved user has the
   * claims' subject as ID and keeps every non-empty claim.
   */
  lemma ClaimsDecide(p: GoogleProvider, s: Services, tokens: OAuth.TokenResponse)
    requires tokens.idToken != ""
    ensures var v := s.verify(p.clientID, tokens.idToken);
      var u := ResolveUser(p, s, tokens);
      (v.Err? ==> u == Err("failed to verify ID token: " + v.error)) &&
      (v.Ok? && s.claims(v.value).Err? ==> u == Err("failed to parse claims: " + s.claims(v.value).error)) &&
      (v.Ok? && s.claims(v.value).Ok? ==>
         var c := s.claims(v.value).value;
         (!c.emailVerified ==> u == Err("email not verified")) &&
         (u.Ok? ==>
            c.emailVerified && u.value.id == c.sub &&
            (c.email != "" ==> u.value.email == c.email) &&
            (c.name != "" ==> u.value.name == c.name)))
  {
  }

  /**
   * Userinfo is fetched only when a claim is missing and an access token is
   * present: otherwise the result does not depend on the userinfo request
   * at all. When it is fetched, a failure is an error and its values only
   * fill the empty claims.
   */
  lemma UserInfoOnlyWhenNeeded(p: GoogleProvider, s: Services, tokens: OAuth.TokenResponse,
                               send: (string, string) -> Result<OAuth2.ClientResponse, string>)
    requires tokens.idToken != ""
    requires s.verify(p.clientID, tokens.idToken).Ok? && s.claims(s.verify(p.clientID, tokens.idToken).value).Ok?
    ensures var c := s.claims(s.verify(p.clientID, tokens.idToken).value).value;
      var info := FetchUserInfo(s, tokens.accessToken);
      (!NeedsUserInfo(c, tokens) ==> ResolveUser(p, s, tokens) == ResolveUser(p, s.(send := send), tokens)) &&
      (c.emailVerified && NeedsUserInfo(c, tokens) && info.Err? ==>
         ResolveUser(p, s, tokens) == Err("failed to fetch user info: " + info.error)) &&
      (c.emailVerified && NeedsUserInfo(c, tokens) && info.Ok? ==>
         ResolveUser(p, s, tokens) ==
           Ok(OAuth.User(if c.email != "" then c.email else info.value.email,
                         if c.name != "" then c.name else info.value.name, c.sub)))
  {
    var s2 := s.(send := send);
    assert s2.verify == s.verify && s2.claims == s.claims;
  }

  /** The provider as the registry hands it out. */
  function AsProvider(p: GoogleProvider, s: Services): (q: OAuth.Provider)
    ensures q.name == Name
    ensures forall state, url :: q.authURL(state, url) == GetAuthURL(p, s, state, url)
    ensures forall code, url :: q.exchangeCode(code, url) == ExchangeCode(p, s, code, url)
    ensures forall t :: q.getUser(t) == ResolveUser(p, s, t)
  {
    OAuth.Provider(Name, (state, url) => GetAuthURL(p, s, state, url),
                   (code, url) => ExchangeCode(p, s, code, url), t => ResolveUser(p, s, t))
  }
}
