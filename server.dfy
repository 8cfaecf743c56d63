/**
 * The gateway server: the per-host data built from the configuration by
 * `New`, and the route table of `setupRoutes`.
 */
module Server {
  import opened Wrappers
  import Config
  import OAuth

  /** An RSA private key: the public modulus and exponent, and the private exponent. */
  datatype PrivateKey = PrivateKey(n: nat, e: nat, d: nat)

  /** `hostData`: what the handlers know about one virtual host. */
  datatype HostData = HostData(
    allowedRedirectURLs: seq<string>,
    loginDir: string,
    jwtAudience: string,
    jwtExpiry: int,                      // nanoseconds, a `time.Duration`
    jwtKeyID: string,
    providers: map<string, OAuth.Provider>,
    signKey: PrivateKey)

  /** `Server`, without the HTTP server and the rate limiter it wraps routes with. */
  datatype Server = Server(
    cookieName: string,
    cookieSecret: string,
    serverPort: string,
    hosts: map<string, HostData>,
    metricsConfig: Config.Settings)

  datatype NewError =
    | NoRateLimiter              // "rate limiter is required"
    | NoRegistry                 // "OAuth registry is required"
    | NoHosts                    // "at least one host is required"
    | KeyLoadFailed(host: string)
    | NoProviders(host: string)
    | InvalidExpiry(host: string)

  /** The providers of a host whose creation succeeds; the others are skipped. */
  ghost function BuiltProviders(registry: OAuth.Registry, hc: Config.HostConfig): (m: map<string, OAuth.Provider>)
    reads registry
    ensures m.Keys <= hc.providers.Keys
    ensures forall name :: name in hc.providers ==>
      (name in m <==> registry.Create(name, hc.providers[name]).Ok?)
  {
    map name | name in hc.providers && registry.Create(name, hc.providers[name]).Ok? ::
      registry.Create(name, hc.providers[name]).value
  }

  /** A host builds when its key loads, some provider is created and its expiry parses. */
  ghost predicate HostBuilds(registry: OAuth.Registry, hc: Config.HostConfig,
                             loadKey: string -> Result<PrivateKey, string>, parseDuration: string -> Option<int>)
    reads registry
  {
    loadKey(hc.jwt.privateKeyFile).Ok? && |BuiltProviders(registry, hc)| > 0 &&
    parseDuration(hc.jwt.expiry).Some?
  }

  ghost function BuiltHost(registry: OAuth.Registry, hc: Config.HostConfig,
                           loadKey: string -> Result<PrivateKey, string>, parseDuration: string -> Option<int>): HostData
    reads registry
    requires HostBuilds(registry, hc, loadKey, parseDuration)
  {
    HostData(hc.allowedRedirectURLs, hc.loginDir, hc.jwt.audience, parseDuration(hc.jwt.expiry).value,
             hc.jwt.keyID, BuiltProviders(registry, hc), loadKey(hc.jwt.privateKeyFile).value)
  }

  /** Every configured host builds. */
  ghost predicate AllHostsBuild(registry: OAuth.Registry, hosts: map<string, Config.HostConfig>,
                                loadKey: string -> Result<PrivateKey, string>, parseDuration: string -> Option<int>)
    reads registry
  {
    forall h :: h in hosts ==> HostBuilds(registry, hosts[h], loadKey, parseDuration)
  }

  /**
   * The server `New` returns: one entry per configured host, each built from
   * that host's configuration, and the cookie and port settings copied.
   */
  ghost predicate BuiltServer(s: Server, cfg: Config.Settings, registry: OAuth.Registry,
                              loadKey: string -> Result<PrivateKey, string>, parseDuration: string -> Option<int>)
    reads registry
  {
    AllHostsBuild(registry, cfg.hosts, loadKey, parseDuration) &&
    (forall h :: h in s.hosts <==> h in cfg.hosts) &&
    (forall h :: h in cfg.hosts ==> s.hosts[h] == BuiltHost(registry, cfg.hosts[h], loadKey, parseDuration)) &&
    s == Server(cfg.cookie.name, cfg.cookie.secret, cfg.server.port, s.hosts, cfg)
  }

  /** What a host-level error says about the configuration: the step of that host that failed. */
  ghost predicate HostErrorHolds(e: NewError, registry: OAuth.Registry, hosts: map<string, Config.HostConfig>,
                                 loadKey: string -> Result<PrivateKey, string>, parseDuration: string -> Option<int>)
    reads registry
  {
    match e
    case KeyLoadFailed(h) =>
      h in hosts && loadKey(hosts[h].jwt.privateKeyFile).Err?
    case NoProviders(h) =>
      h in hosts && loadKey(hosts[h].jwt.privateKeyFile).Ok? && |BuiltProviders(registry, hosts[h])| == 0
    case InvalidExpiry(h) =>
      h in hosts && loadKey(hosts[h].jwt.privateKeyFile).Ok? && |BuiltProviders(registry, hosts[h])| > 0 &&
      parseDuration(hosts[h].jwt.expiry).None?
    case _ => false
  }

  /**
   * `New(cfg)`. `hasRateLimiter` and `registry == null` stand for the nil
   * checks; `loadKey` is `loadSigningKey` on a file name and `parseDuration`
   * is `time.ParseDuration` in nanoseconds. Go ranges over a map in no fixed
   * order, so the loop picks the next host nondeterministically.
   */
  method New(cfg: Config.Settings, hasRateLimiter: bool, registry: OAuth.Registry?,
             loadKey: string -> Result<PrivateKey, string>, parseDuration: string -> Option<int>)
    returns (res: Result<Server, NewError>)
    ensures !hasRateLimiter ==> res == Err(NoRateLimiter)
    ensures hasRateLimiter && registry == null ==> res == Err(NoRegistry)
    ensures hasRateLimiter && registry != null && |cfg.hosts| == 0 ==> res == Err(NoHosts)
    ensures res.Ok? <==>
      hasRateLimiter && registry != null && |cfg.hosts| > 0 && AllHostsBuild(registry, cfg.hosts, loadKey, parseDuration)
    ensures res.Ok? ==> BuiltServer(res.value, cfg, registry, loadKey, parseDuration)
    ensures res.Err? && hasRateLimiter && registry != null && |cfg.hosts| > 0 ==>
      HostErrorHolds(res.error, registry, cfg.hosts, loadKey, parseDuration)
  {
    if !hasRateLimiter {
      return Err(NoRateLimiter);
    }
    if registry == null {
      return Err(NoRegistry);
    }
    if |cfg.hosts| == 0 {
      return Err(NoHosts);
    }

    var hosts: map<string, HostData> := map[];
    var pending := cfg.hosts.Keys;
    while pending != {}
      invariant pending <= cfg.hosts.Keys
      invariant forall h :: h in hosts <==> h in cfg.hosts && h !in pending
      invariant forall h :: h in hosts ==>
        HostBuilds(registry, cfg.hosts[h], loadKey, parseDuration) &&
        hosts[h] == BuiltHost(registry, cfg.hosts[h], loadKey, parseDuration)
      decreases |pending|
    {
      var hostname :| hostname in pending;
      var hostConfig := cfg.hosts[hostname];
      var signKey := loadKey(hostConfig.jwt.privateKeyFile);
      if signKey.Err? {
        return Err(KeyLoadFailed(hostname));
      }

      var providers := CreateProviders(registry, hostConfig);
      if |providers| == 0 {
        return Err(NoProviders(hostname));
      }

      var expiry := parseDuration(hostConfig.jwt.expiry);
      if expiry.None? {
        return Err(InvalidExpiry(hostname));
      }

      hosts := hosts[hostname := HostData(hostConfig.allowedRedirectURLs, hostConfig.loginDir,
                                          hostConfig.jwt.audience, expiry.value, hostConfig.jwt.keyID,
                                          providers, signKey.value)];
      pending := pending - {hostname};
    }
    res := Ok(Server(cfg.cookie.name, cfg.cookie.secret, cfg.server.port, hosts, cfg));
  }

  /**
   * The provider loop of `New` for one host: every configured provider is
   * created; one whose creation fails is skipped and the loop goes on.
   */
  method CreateProviders(registry: OAuth.Registry, hc: Config.HostConfig)
    returns (providers: map<string, OAuth.Provider>)
    ensures providers == BuiltProviders(registry, hc)
  {
    providers := map[];
    var pending := hc.providers.Keys;
    while pending != {}
      invariant pending <= hc.providers.Keys
      invariant forall name :: name in providers <==>
        name in hc.providers && name !in pending && registry.Create(name, hc.providers[name]).Ok?
      invariant forall name :: name in providers ==>
        providers[name] == registry.Create(name, hc.providers[name]).value
      decreases |pending|
    {
      var providerName :| providerName in pending;
      pending := pending - {providerName};
      var provider := registry.Create(providerName, hc.providers[providerName]);
      if provider.Err? {
        continue;
      }
      providers := providers[providerName := provider.value];
    }
  }

  /** On success every host has at least one provider, all of them configured for it. */
  lemma BuiltHostHasProviders(registry: OAuth.Registry, hc: Config.HostConfig,
                              loadKey: string -> Result<PrivateKey, string>, parseDuration: string -> Option<int>)
    requires HostBuilds(registry, hc, loadKey, parseDuration)
    ensures var p := BuiltHost(registry, hc, loadKey, parseDuration).providers;
      |p| > 0 && p.Keys <= hc.providers.Keys
  {
  }

  // ---------------------------------------------------------------------------
  // setupRoutes
  // ---------------------------------------------------------------------------

  datatype Handler = HealthCheck | Jwks | Login | Callback | Root | Metrics

  /** A mux entry: its pattern, what serves it, and whether the rate limiter wraps it. */
  datatype Route = Route(pattern: string, handler: Handler, rateLimited: bool)

  /** The metrics path, "/metrics" when the configured one is empty. */
  function MetricsPath(c: Config.Settings): (p: string)
    ensures p != ""
  {
    if c.metrics.path == "" then "/metrics" else c.metrics.path
  }

  /**
   * `setupRoutes`: health check, JWKS, login, callback and root, then the
   * metrics endpoint when enabled. The logging and metrics middleware around
   * the whole mux are not part of this table.
   */
  function Routes(s: Server): (routes: seq<Route>)
    ensures |routes| == if s.metricsConfig.metrics.enable then 6 else 5
    ensures forall i :: 0 <= i < 5 ==> (!routes[i].rateLimited <==> routes[i].handler == HealthCheck)
    ensures forall i :: 0 <= i < |routes| ==>
      (routes[i].handler == Metrics <==> i == 5) &&
      (routes[i].handler == Metrics ==> routes[i].pattern == "GET " + MetricsPath(s.metricsConfig) && !routes[i].rateLimited)
    ensures (set i | 0 <= i < 5 :: routes[i].handler) == {HealthCheck, Jwks, Login, Callback, Root}
  {
    var app := [
      Route("GET /healthz", HealthCheck, false),
      Route("GET /.well-known/jwks.json", Jwks, true),
      Route("GET /oauth/login/{provider}", Login, true),
      Route("GET /oauth/callback/{provider}", Callback, true),
      Route("GET /", Root, true)];
    var routes := if s.metricsConfig.metrics.enable
      then app + [Route("GET " + MetricsPath(s.metricsConfig), Metrics, false)]
      else app;
    assert routes[..5] == app;
    assert (set i | 0 <= i < 5 :: routes[i].handler) == {HealthCheck, Jwks, Login, Callback, Root} by {
      assert routes[0].handler == HealthCheck && routes[1].handler == Jwks && routes[2].handler == Login;
      assert routes[3].handler == Callback && routes[4].handler == Root;
    }
    routes
  }
}
