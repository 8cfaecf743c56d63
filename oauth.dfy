/**
 * The provider abstraction: what a provider can do, and the registry of
 * provider factories keyed by provider type.
 */
module OAuth {
  import opened Wrappers
  import opened Http
  import Config

  datatype User = User(email: string, name: string, id: string)

  datatype TokenResponse = TokenResponse(
    accessToken: string,
    tokenType: string,
    refreshToken: string,
    idToken: string,
    expiresIn: int)

  /**
   * A `Provider`: its methods as function values. The request context is not
   * modelled; a network outcome is part of what the function answers.
   */
  datatype Provider = Provider(
    name: string,
    authURL: (string, string) -> string,                             // GetAuthURL(state, redirectURL)
    exchangeCode: (string, string) -> Result<TokenResponse, string>,  // ExchangeCode(code, redirectURL)
    getUser: TokenResponse -> Result<User, string>)                   // GetUser(tokens)

  /** A `Factory`: builds a provider from its client configuration, or fails. */
  type Factory = Config.OAuthProvider -> Result<Provider, string>

  /** The registry of factories. */
  class Registry {
    var factories: map<string, Factory>

    /** `NewRegistry()`: no factory registered. */
    constructor ()
      ensures factories == map[]
    {
      factories := map[];
    }

    /** `Register(name, f)`: a later registration of a name replaces the earlier one. */
    method Register(name: string, f: Factory)
      modifies this
      ensures factories == old(factories)[name := f]
      ensures forall c :: Create(name, c) == f(c)
      ensures forall other, c :: other != name ==> Create(other, c) == old(Create(other, c))
    {
      factories := factories[name := f];
    }

    /**
     * `Create(providerType, config)`: the registered factory's result, error
     * included; an unknown type fails without calling any factory. Being a
     * function, it leaves the registry as it was.
     */
    function Create(providerType: string, c: Config.OAuthProvider): (r: Result<Provider, string>)
      reads this
      ensures providerType !in factories ==> r == Err("unknown provider type: " + providerType)
      ensures providerType in factories ==> r == factories[providerType](c)
    {
      if providerType !in factories then Err("unknown provider type: " + providerType)
      else factories[providerType](c)
    }
  }

  /** Two registrations under one name: only the second factory is used. */
  method ReRegisterOverwrites(first: Factory, second: Factory, name: string, c: Config.OAuthProvider)
    returns (r: Result<Provider, string>)
    ensures r == second(c)
  {
    var reg := new Registry();
    reg.Register(name, first);
    reg.Register(name, second);
    r := reg.Create(name, c);
  }

  /** `oauth.Middleware`: a pass-through to the next handler. */
  function Middleware<R>(next: Request -> R): (h: Request -> R)
    ensures forall r :: h(r) == next(r)
  {
    r => next(r)
  }
}
