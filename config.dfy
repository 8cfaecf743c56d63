/**
 * The gateway's configuration and the defaults `applyDefaults` fills in
 * after the YAML file is parsed.
 */
module Config {

  datatype OAuthProvider = OAuthProvider(clientID: string, clientSecret: string)

  datatype JwtConfig = JwtConfig(privateKeyFile: string, keyID: string, audience: string, expiry: string)

  datatype HostConfig = HostConfig(
    loginDir: string,
    allowedRedirectURLs: seq<string>,
    providers: map<string, OAuthProvider>,
    jwt: JwtConfig)

  /** One minute as a nanosecond-valued `time.Duration`. */
  const Minute: int := 60_000_000_000

  datatype ServerSection = ServerSection(port: string)
  datatype CookieSection = CookieSection(secret: string, name: string)
  datatype RateLimitSection = RateLimitSection(
    requestsPerMinute: int,
    cleanupInterval: int,        // nanoseconds
    xForwardedForIndex: int)
  datatype LoggingSection = LoggingSection(level: string, format: string)
  datatype MetricsSection = MetricsSection(enable: bool, goMetrics: bool, path: string)

  /** A snapshot of the whole configuration. */
  datatype Settings = Settings(
    env: string,
    server: ServerSection,
    cookie: CookieSection,
    rateLimit: RateLimitSection,
    logging: LoggingSection,
    metrics: MetricsSection,
    hosts: map<string, HostConfig>)

  /** A string field's value, or `d` when it is empty. */
  function OrDefault(s: string, d: string): string {
    if s == "" then d else s
  }

  /** An integer field's value, or `d` when it is zero. */
  function OrDefaultInt(n: int, d: int): int {
    if n == 0 then d else n
  }

  /** What `applyDefaults` turns a configuration into. */
  function Defaulted(v: Settings): (r: Settings)
    ensures Complete(r)
    ensures Complete(v) ==> r == v
    ensures r.hosts == v.hosts && r.cookie.secret == v.cookie.secret
  {
    Settings(
      OrDefault(v.env, "production"),
      ServerSection(OrDefault(v.server.port, "8080")),
      v.cookie.(name := OrDefault(v.cookie.name, "oauth_state")),
      v.rateLimit.(requestsPerMinute := OrDefaultInt(v.rateLimit.requestsPerMinute, 60),
                   cleanupInterval := OrDefaultInt(v.rateLimit.cleanupInterval, 5 * Minute)),
      LoggingSection(OrDefault(v.logging.level, "info"), OrDefault(v.logging.format, "text")),
      if v.metrics.enable then v.metrics.(path := OrDefault(v.metrics.path, "/metrics")) else v.metrics,
      v.hosts)
  }

  /** None of the fields `applyDefaults` looks after is left at its zero value. */
  predicate Complete(v: Settings) {
    v.env != "" && v.server.port != "" && v.cookie.name != "" &&
    v.rateLimit.requestsPerMinute != 0 && v.rateLimit.cleanupInterval != 0 &&
    v.logging.level != "" && v.logging.format != "" &&
    (v.metrics.enable ==> v.metrics.path != "")
  }

  /** The zero values become the documented defaults. */
  lemma DefaultValues(v: Settings)
    ensures v.env == "" ==> Defaulted(v).env == "production"
    ensures v.server.port == "" ==> Defaulted(v).server.port == "8080"
    ensures v.cookie.name == "" ==> Defaulted(v).cookie.name == "oauth_state"
    ensures v.rateLimit.requestsPerMinute == 0 ==> Defaulted(v).rateLimit.requestsPerMinute == 60
    ensures v.rateLimit.cleanupInterval == 0 ==> Defaulted(v).rateLimit.cleanupInterval == 300_000_000_000
    ensures v.logging.level == "" ==> Defaulted(v).logging.level == "info"
    ensures v.logging.format == "" ==> Defaulted(v).logging.format == "text"
    ensures v.metrics.enable && v.metrics.path == "" ==> Defaulted(v).metrics.path == "/metrics"
    ensures !v.metrics.enable ==> Defaulted(v).metrics.path == v.metrics.path
  {
  }

  /**
   * Non-zero values, negative ones included, are kept, and the fields with no
   * default (the secret, the forwarded-for index, the metrics switches and
   * the hosts) are never touched.
   */
  lemma KeepsSetFields(v: Settings)
    ensures v.env != "" ==> Defaulted(v).env == v.env
    ensures v.server.port != "" ==> Defaulted(v).server.port == v.server.port
    ensures v.cookie.name != "" ==> Defaulted(v).cookie.name == v.cookie.name
    ensures v.rateLimit.requestsPerMinute != 0 ==>
      Defaulted(v).rateLimit.requestsPerMinute == v.rateLimit.requestsPerMinute
    ensures v.rateLimit.cleanupInterval != 0 ==>
      Defaulted(v).rateLimit.cleanupInterval == v.rateLimit.cleanupInterval
    ensures v.logging.level != "" ==> Defaulted(v).logging.level == v.logging.level
    ensures v.logging.format != "" ==> Defaulted(v).logging.format == v.logging.format
    ensures v.metrics.path != "" ==> Defaulted(v).metrics.path == v.metrics.path
    ensures Defaulted(v).cookie.secret == v.cookie.secret
    ensures Defaulted(v).rateLimit.xForwardedForIndex == v.rateLimit.xForwardedForIndex
    ensures Defaulted(v).metrics.enable == v.metrics.enable && Defaulted(v).metrics.goMetrics == v.metrics.goMetrics
    ensures Defaulted(v).hosts == v.hosts
  {
  }

  /** The result is complete, and a configuration is left alone exactly when it already is. */
  lemma DefaultedComplete(v: Settings)
    ensures Complete(Defaulted(v))
    ensures Defaulted(v) == v <==> Complete(v)
  {
    if Defaulted(v) == v {
      assert Complete(Defaulted(v));
    }
  }

  /** `applyDefaults` is idempotent. */
  lemma DefaultedIdempotent(v: Settings)
    ensures Defaulted(Defaulted(v)) == Defaulted(v)
  {
    DefaultedComplete(v);
    DefaultedComplete(Defaulted(v));
  }

  /**
   * The configuration object. Its sections are Go struct values held by the
   * object, so `applyDefaults` assigns a changed copy of a section.
   */
  class Config {
    var env: string
    var server: ServerSection
    var cookie: CookieSection
    var rateLimit: RateLimitSection
    var logging: LoggingSection
    var metrics: MetricsSection
    var hosts: map<string, HostConfig>

    /** The configuration as parsed, before any default. */
    constructor (v: Settings)
      ensures Snapshot() == v
    {
      env, server, cookie, rateLimit := v.env, v.server, v.cookie, v.rateLimit;
      logging, metrics, hosts := v.logging, v.metrics, v.hosts;
    }

    function Snapshot(): Settings
      reads this
    {
      Settings(env, server, cookie, rateLimit, logging, metrics, hosts)
    }

    /**
     * `applyDefaults(cfg)`. Each guarded assignment of the source is written
     * as an assignment of the field's value or its default, which stores the
     * same value the guarded one does. Complete(Snapshot()) holds afterwards,
     * by DefaultedComplete.
     */
    method ApplyDefaults()
      modifies this
      ensures Snapshot() == Defaulted(old(Snapshot()))
    {
      env := OrDefault(env, "production");
      server := server.(port := OrDefault(server.port, "8080"));
      cookie := cookie.(name := OrDefault(cookie.name, "oauth_state"));
      rateLimit := rateLimit.(requestsPerMinute := OrDefaultInt(rateLimit.requestsPerMinute, 60));
      rateLimit := rateLimit.(cleanupInterval := OrDefaultInt(rateLimit.cleanupInterval, 5 * Minute));
      logging := logging.(level := OrDefault(logging.level, "info"));
      logging := logging.(format := OrDefault(logging.format, "text"));
      if metrics.enable {
        metrics := metrics.(path := OrDefault(metrics.path, "/metrics"));
      }
    }
  }
}
