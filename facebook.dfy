/**
 * The Facebook provider: plain OAuth 2.0; the user comes from the Graph API
 * `me` object, which must carry an email and an ID.
 */
module Facebook {
  import opened Wrappers
  import opened Text
  import Config
  import OAuth
  import OAuth2

  const Name: string := "facebook"

  /** The Graph API URL of the user's id, name and email; the access token is appended as is. */
  const MeURL: string := "https://graph.facebook.com/me?fields=id,name,email&access_token="

  /** `FacebookUser`: the Graph API's `me` object. */
  datatype FacebookUser = FacebookUser(id: string, name: string, email: string)

  datatype FacebookProvider = FacebookProvider(config: OAuth2.Config)

  /** Why a Graph API request was not answered. */
  datatype SendError =
    | Create(msg: string)      // `http.NewRequestWithContext` failed
    | Transport(msg: string)   // `client.Do` failed

  /**
   * What the provider calls out to: the oauth2 client, the Graph API GET of
   * a URL, and JSON decoding of its body.
   */
  datatype Services = Services(
    client: OAuth2.Client,
    send: string -> Result<OAuth2.ClientResponse, SendError>,
    unmarshal: seq<byte> -> Result<FacebookUser, string>)

  /** `New`: never fails; email and public profile scopes, no redirect URL. */
  function New(pc: Config.OAuthProvider): (p: FacebookProvider)
    ensures p.config.clientID == pc.clientID && p.config.clientSecret == pc.clientSecret
    ensures p.config.scopes == ["email", "public_profile"] && p.config.redirectURL == ""
  {
    FacebookProvider(OAuth2.Config(pc.clientID, pc.clientSecret, ["email", "public_profile"], Name, ""))
  }

  /** `GetAuthURL`: the consent URL for offline access, built on a copy with the redirect URL. */
  function GetAuthURL(p: FacebookProvider, s: Services, state: string, redirectURL: string): (url: string)
    ensures url == s.client.authCodeURL(p.config.(redirectURL := redirectURL), state, [OAuth2.AccessTypeOffline])
  {
    s.client.authCodeURL(OAuth2.WithRedirect(p.config, redirectURL), state, [OAuth2.AccessTypeOffline])
  }

  /** `ExchangeCode`: the exchange on a copy with the redirect URL; Facebook issues no ID token. */
  function ExchangeCode(p: FacebookProvider, s: Services, code: string, redirectURL: string): (r: Result<OAuth.TokenResponse, string>)
    ensures var t := s.client.exchange(OAuth2.WithRedirect(p.config, redirectURL), code);
      (t.Err? <==> r.Err?) &&
      (t.Err? ==> r.error == "failed to exchange auth code: " + t.error) &&
      (t.Ok? ==>
         r.value.accessToken == t.value.accessToken && r.value.tokenType == t.value.tokenType &&
         r.value.refreshToken == t.value.refreshToken && r.value.expiresIn == t.value.expiresIn &&
         r.value.idToken == "")
  {
    var t := s.client.exchange(OAuth2.WithRedirect(p.config, redirectURL), code);
    if t.Err? then Err("failed to exchange auth code: " + t.error)
    else Ok(OAuth.TokenResponse(t.value.accessToken, t.value.tokenType, t.value.refreshToken, "", t.value.expiresIn))
  }

  /** The provider's calls see only the redirect URL they are given, never the one stored in its configuration. */
  lemma StoredRedirectIgnored(p: FacebookProvider, s: Services, stored: string, state: string, code: string, redirectURL: string)
    ensures var q := p.(config := p.config.(redirectURL := stored));
      GetAuthURL(q, s, state, redirectURL) == GetAuthURL(p, s, state, redirectURL) &&
      ExchangeCode(q, s, code, redirectURL) == ExchangeCode(p, s, code, redirectURL)
  {
    var q := p.(config := p.config.(redirectURL := stored));
    assert OAuth2.WithRedirect(q.config, redirectURL) == OAuth2.WithRedirect(p.config, redirectURL);
  }

  /**
   * `fetchUserInfo`: the Graph API GET. A failed request is an error, and so
   * is a status other than 200, whatever the body; an OK body is read and
   * decoded.
   */
  function FetchUserInfo(s: Services, accessToken: string): (r: Result<FacebookUser, string>)
    ensures var resp := s.send(MeURL + accessToken);
      (resp.Err? && resp.error.Create? ==> r == Err("creating request: " + resp.error.msg)) &&
      (resp.Err? && resp.error.Transport? ==> r == Err("making request: " + resp.error.msg)) &&
      (resp.Ok? && resp.value.status != 200 ==>
         r == Err("facebook API returned status " + Itoa(resp.value.status))) &&
      (resp.Ok? && resp.value.status == 200 && resp.value.body.Err? ==>
         r == Err("reading response body: " + resp.value.body.error)) &&
      (resp.Ok? && resp.value.status == 200 && resp.value.body.Ok? ==>
         var u := s.unmarshal(resp.value.body.value);
         (u.Ok? ==> r == u) && (u.Err? ==> r == Err("unmarshaling user info: " + u.error)))
  {
    var resp := s.send(MeURL + accessToken);
    if resp.Err? then
      if resp.error.Create? then Err("creating request: " + resp.error.msg)
      else Err("making request: " + resp.error.msg)
    else if resp.value.status != 200 then Err("facebook API returned status " + Itoa(resp.value.status))
    else if resp.value.body.Err? then Err("reading response body: " + resp.value.body.error)
    else
      var u := s.unmarshal(resp.value.body.value);
      if u.Err? then Err("unmarshaling user info: " + u.error) else u
  }

  /**
   * `GetUser`: the fetched user, which must have an email (checked first)
   * and an ID; the result copies its ID, email and name.
   */
  function GetUser(s: Services, tokens: OAuth.TokenResponse): (r: Result<OAuth.User, string>)
    ensures var info := FetchUserInfo(s, tokens.accessToken);
      (info.Err? ==> r == Err("failed to fetch user info: " + info.error)) &&
      (info.Ok? && info.value.email == "" ==> r == Err("user email not available from Facebook")) &&
      (info.Ok? && info.value.email != "" && info.value.id == "" ==> r == Err("user ID not available from Facebook")) &&
      (r.Ok? <==> info.Ok? && info.value.email != "" && info.value.id != "") &&
      (r.Ok? ==> r.value == OAuth.User(info.value.email, info.value.name, info.value.id))
  {
    var userInfo := FetchUserInfo(s, tokens.accessToken);
    if userInfo.Err? then Err("failed to fetch user info: " + userInfo.error)
    else if userInfo.value.email == "" then Err("user email not available from Facebook")
    else if userInfo.value.id == "" then Err("user ID not available from Facebook")
    else Ok(OAuth.User(userInfo.value.email, userInfo.value.name, userInfo.value.id))
  }

  /** The provider as the registry hands it out. */
  function AsProvider(p: FacebookProvider, s: Services): (q: OAuth.Provider)
    ensures q.name == Name
    ensures forall state, url :: q.authURL(state, url) == GetAuthURL(p, s, state, url)
    ensures forall code, url :: q.exchangeCode(code, url) == ExchangeCode(p, s, code, url)
    ensures forall t :: q.getUser(t) == GetUser(s, t)
  {
    OAuth.Provider(Name, (state, url) => GetAuthURL(p, s, state, url),
                   (code, url) => ExchangeCode(p, s, code, url), t => GetUser(s, t))
  }
}
