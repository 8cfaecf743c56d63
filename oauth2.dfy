/**
 * The parts of the `golang.org/x/oauth2` client the providers use: the
 * client configuration they copy, the token an exchange returns, and the
 * two library calls, building the consent URL and exchanging a code, as
 * function values. The HTTP response of a provider's API call is here too.
 */
module OAuth2 {
  import opened Wrappers
  import opened Text

  /** `oauth2.AccessTypeOffline` and `oauth2.ApprovalForce`. */
  datatype AuthOption = AccessTypeOffline | ApprovalForce

  /** `oauth2.Config`; the endpoint is named rather than spelled out. */
  datatype Config = Config(
    clientID: string,
    clientSecret: string,
    scopes: seq<string>,
    endpoint: string,
    redirectURL: string)

  /**
   * `oauth2.Token`: `expiresIn` is `time.Until(Expiry)` in whole seconds, and
   * `idToken` the `id_token` extra when it is a string.
   */
  datatype Token = Token(
    accessToken: string,
    tokenType: string,
    refreshToken: string,
    expiresIn: int,
    idToken: Option<string>)

  /** `Config.AuthCodeURL(state, opts...)` and `Config.Exchange(ctx, code)`. */
  datatype Client = Client(
    authCodeURL: (Config, string, seq<AuthOption>) -> string,
    exchange: (Config, string) -> Result<Token, string>)

  /** The status of an API response and its body as `io.ReadAll` reads it, or the read error. */
  datatype ClientResponse = ClientResponse(status: int, body: Result<seq<byte>, string>)

  /** The configuration with the redirect URL set, on a copy: what a handler's call uses. */
  function WithRedirect(c: Config, redirectURL: string): (copy: Config)
    ensures copy.redirectURL == redirectURL
    ensures copy.(redirectURL := c.redirectURL) == c
  {
    c.(redirectURL := redirectURL)
  }
}
