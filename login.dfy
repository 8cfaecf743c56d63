/**
 * `handlerLogin`: checks the host, the provider and the redirect against
 * the host's allow-list, stores a fresh random state and the redirect in the
 * encrypted state cookie, and redirects the browser to the provider.
 */
module LoginHandler {
  import opened Wrappers
  import opened Text
  import opened Http
  import opened ServerUtils
  import opened StateCodec
  import Wildcard
  import Server
  import OAuth

  /** What the handler writes: status, body, the cookie it sets and the Location header. */
  datatype Response = Response(status: int, body: string, cookie: Option<Cookie>, location: Option<string>)

  /** `http.Error(w, body, status)`: no cookie and no redirect. */
  function Failure(status: int, body: string): Response {
    Response(status, body, None, None)
  }

  /** The body `http.NotFound` writes. */
  const NotFoundBody: string := "404 page not found"

  /** `generateRandomString(16)`. */
  const StateLength: int := 16

  /** Some pattern of the allow-list matches the URL. */
  predicate AllowedRedirect(patterns: seq<string>, url: string) {
    exists k :: 0 <= k < |patterns| && Wildcard.Match(patterns[k], url)
  }

  /** The state cookie: Path "/", HttpOnly, SameSite Lax, one hour, Secure exactly on https. */
  function StateCookie(name: string, value: string, secure: bool): (c: Cookie)
    ensures c.name == name && c.value == value && c.secure == secure
    ensures c.path == "/" && c.httpOnly && c.sameSite == SameSiteLax && c.maxAge == 3600
  {
    Cookie(name, value, "/", "", 3600, true, secure, SameSiteLax)
  }

  /** The outcome of the checks that come before the state is generated. */
  datatype Check =
    | Rejected(response: Response)
    | Accepted(provider: OAuth.Provider, raw: string, decoded: string)

  /**
   * The checks of lines 13-47 in their order: the host, the provider, the
   * `redirect` parameter (`raw`, as `Query().Get` returns it), its
   * `url.QueryUnescape` (`unescape`) and the allow-list.
   */
  function Checks(s: Server.Server, r: Request, unescape: string -> Option<string>): (c: Check)
    ensures r.host !in s.hosts ==> c == Rejected(Failure(StatusBadRequest, "Unknown host"))
    ensures c.Accepted? ==>
      r.host in s.hosts && r.pathProvider in s.hosts[r.host].providers &&
      c.provider == s.hosts[r.host].providers[r.pathProvider] &&
      c.raw == Query(r, "redirect") && c.raw != "" && unescape(c.raw) == Some(c.decoded) &&
      AllowedRedirect(s.hosts[r.host].allowedRedirectURLs, c.decoded)
  {
    if r.host !in s.hosts then Rejected(Failure(StatusBadRequest, "Unknown host"))
    else
      var host := s.hosts[r.host];
      var raw := Query(r, "redirect");
      if r.pathProvider !in host.providers then Rejected(Failure(StatusNotFound, NotFoundBody))
      else if raw == "" then Rejected(Failure(StatusBadRequest, "Missing redirect URL query parameter"))
      else if unescape(raw).None? then Rejected(Failure(StatusBadRequest, "Invalid redirect URL query parameter"))
      else if !AllowedRedirect(host.allowedRedirectURLs, unescape(raw).value)
      then Rejected(Failure(StatusBadRequest, "Redirect URL not allowed"))
      else Accepted(host.providers[r.pathProvider], raw, unescape(raw).value)
  }

  /**
   * A rejected request gets 400, or 404 for an unknown provider of a known
   * host, and no cookie; an accepted one carries the configured provider and
   * a decoded redirect that the allow-list matches.
   */
  lemma CheckedOutcomes(s: Server.Server, r: Request, unescape: string -> Option<string>)
    ensures var c := Checks(s, r, unescape);
      (c.Rejected? ==>
         c.response.cookie.None? && c.response.location.None? &&
         (c.response.status == StatusNotFound <==> r.host in s.hosts && r.pathProvider !in s.hosts[r.host].providers) &&
         (c.response.status == StatusBadRequest || c.response.status == StatusNotFound)) &&
      (c.Accepted? <==>
         r.host in s.hosts && r.pathProvider in s.hosts[r.host].providers &&
         Query(r, "redirect") != "" && unescape(Query(r, "redirect")).Some? &&
         AllowedRedirect(s.hosts[r.host].allowedRedirectURLs, unescape(Query(r, "redirect")).value)) &&
      (c.Accepted? ==>
         c.provider == s.hosts[r.host].providers[r.pathProvider] &&
         c.raw == Query(r, "redirect") && Some(c.decoded) == unescape(c.raw))
  {
  }

  /** Lines 13-47 of the handler; the allow-list loop stops at the first match. */
  method CheckRequest(s: Server.Server, r: Request, unescape: string -> Option<string>)
    returns (c: Check)
    ensures c == Checks(s, r, unescape)
  {
    if r.host !in s.hosts {
      return Rejected(Failure(StatusBadRequest, "Unknown host"));
    }
    var host := s.hosts[r.host];
    var providerName := r.pathProvider;
    if providerName !in host.providers {
      return Rejected(Failure(StatusNotFound, NotFoundBody));
    }
    var provider := host.providers[providerName];

    var redirectURLEncoded := Query(r, "redirect");
    if redirectURLEncoded == "" {
      return Rejected(Failure(StatusBadRequest, "Missing redirect URL query parameter"));
    }
    var redirectURL := unescape(redirectURLEncoded);
    if redirectURL.None? {
      return Rejected(Failure(StatusBadRequest, "Invalid redirect URL query parameter"));
    }

    var patterns := host.allowedRedirectURLs;
    var allowed := false;
    var i := 0;
    while i < |patterns|
      invariant 0 <= i <= |patterns|
      invariant forall k :: 0 <= k < i ==> !Wildcard.Match(patterns[k], redirectURL.value)
      invariant !allowed
    {
      if Wildcard.Match(patterns[i], redirectURL.value) {
        allowed := true;
        break;
      }
      i := i + 1;
    }
    if !allowed {
      return Rejected(Failure(StatusBadRequest, "Redirect URL not allowed"));
    }
    c := Accepted(provider, redirectURLEncoded, redirectURL.value);
  }

  /**
   * Lines 49-84 of the handler for an accepted request: the random state
   * (`stateEntropy` stands for its random octets), the encrypted cookie
   * holding it and `stored`, and the redirect to the provider's consent page.
   */
  function IssueState(s: Server.Server, r: Request, provider: OAuth.Provider, stored: string,
                      a: Aead, j: Json, stateEntropy: Option<seq<byte>>, nonceEntropy: Option<seq<byte>>): (resp: Response)
    ensures resp.cookie.Some? <==> resp.status == StatusFound
    ensures var state := GenerateRandomString(StateLength, stateEntropy);
      var sealed := Encrypt(a, j, Utf8(s.cookieSecret), state, stored, nonceEntropy);
      (state == "" ==> resp == Failure(StatusInternalServerError, "Internal server error")) &&
      (state != "" && sealed.err.Some? ==> resp == Failure(StatusInternalServerError, "Internal server error")) &&
      (state != "" && sealed.err.None? ==>
        resp.status == StatusFound && resp.location == Some(provider.authURL(state, CallbackURL(r, r.pathProvider))) &&
        resp.cookie == Some(StateCookie(s.cookieName, sealed.value, IsSecure(r))))
  {
    var state := GenerateRandomString(StateLength, stateEntropy);
    if state == "" then Failure(StatusInternalServerError, "Internal server error")
    else
      var sealed := Encrypt(a, j, Utf8(s.cookieSecret), state, stored, nonceEntropy);
      if sealed.err.Some? then Failure(StatusInternalServerError, "Internal server error")
      else
        var callbackURL := CallbackURL(r, r.pathProvider);
        Response(StatusFound, "", Some(StateCookie(s.cookieName, sealed.value, IsSecure(r))),
                 Some(provider.authURL(state, callbackURL)))
  }

  /**
   * Under the AEAD and JSON laws, the cookie of a redirect decrypts to the
   * state that was sent to the provider and to the stored redirect.
   */
  lemma IssuedCookieDecrypts(s: Server.Server, r: Request, provider: OAuth.Provider, stored: string,
                             a: Aead, j: Json, stateEntropy: Option<seq<byte>>, nonceEntropy: Option<seq<byte>>)
    requires OpenSeal(a) && JsonRoundTrip(j)
    requires IssueState(s, r, provider, stored, a, j, stateEntropy, nonceEntropy).status == StatusFound
    ensures var resp := IssueState(s, r, provider, stored, a, j, stateEntropy, nonceEntropy);
      var d := Decrypt(a, j, Utf8(s.cookieSecret), resp.cookie.value.value);
      d == Decrypted(d.state, stored, None) && d.state != "" &&
      resp.location == Some(provider.authURL(d.state, CallbackURL(r, r.pathProvider)))
  {
    var state := GenerateRandomString(StateLength, stateEntropy);
    DecryptEncrypt(a, j, Utf8(s.cookieSecret), state, stored, nonceEntropy);
  }

  /** `handlerLogin` as written: the cookie stores the redirect as received, not the value checked. */
  method HandleLogin(s: Server.Server, r: Request, unescape: string -> Option<string>, a: Aead, j: Json,
                     stateEntropy: Option<seq<byte>>, nonceEntropy: Option<seq<byte>>)
    returns (resp: Response)
    ensures var c := Checks(s, r, unescape);
      (c.Rejected? ==> resp == c.response) &&
      (c.Accepted? ==> resp == IssueState(s, r, c.provider, c.raw, a, j, stateEntropy, nonceEntropy))
    ensures OpenSeal(a) && JsonRoundTrip(j) && resp.status == StatusFound ==>
      Decrypt(a, j, Utf8(s.cookieSecret), resp.cookie.value.value).redirect == Query(r, "redirect")
  {
    var c := CheckRequest(s, r, unescape);
    if c.Rejected? {
      CheckedOutcomes(s, r, unescape);
      return c.response;
    }
    resp := IssueState(s, r, c.provider, c.raw, a, j, stateEntropy, nonceEntropy);
    if OpenSeal(a) && JsonRoundTrip(j) && resp.status == StatusFound {
      CheckedOutcomes(s, r, unescape);
      IssuedCookieDecrypts(s, r, c.provider, c.raw, a, j, stateEntropy, nonceEntropy);
    }
  }

  /**
   * `handlerLogin` storing the redirect the allow-list accepted, so that the
   * redirect the callback later reads from the cookie is one the allow-list
   * matches.
   */
  method HandleLoginStoringChecked(s: Server.Server, r: Request, unescape: string -> Option<string>, a: Aead, j: Json,
                                   stateEntropy: Option<seq<byte>>, nonceEntropy: Option<seq<byte>>)
    returns (resp: Response)
    ensures var c := Checks(s, r, unescape);
      (c.Rejected? ==> resp == c.response) &&
      (c.Accepted? ==> resp == IssueState(s, r, c.provider, c.decoded, a, j, stateEntropy, nonceEntropy))
    ensures OpenSeal(a) && JsonRoundTrip(j) && resp.status == StatusFound ==>
      r.host in s.hosts &&
      AllowedRedirect(s.hosts[r.host].allowedRedirectURLs,
                      Decrypt(a, j, Utf8(s.cookieSecret), resp.cookie.value.value).redirect)
  {
    var c := CheckRequest(s, r, unescape);
    if c.Rejected? {
      CheckedOutcomes(s, r, unescape);
      return c.response;
    }
    resp := IssueState(s, r, c.provider, c.decoded, a, j, stateEntropy, nonceEntropy);
    if OpenSeal(a) && JsonRoundTrip(j) && resp.status == StatusFound {
      CheckedOutcomes(s, r, unescape);
      IssuedCookieDecrypts(s, r, c.provider, c.decoded, a, j, stateEntropy, nonceEntropy);
    }
  }

  /**
   * The redirect that is checked and the redirect that is stored can differ.
   * With the single allow-list pattern `https://a.example/` followed by a
   * star, the received value `https://a.example%2F@b.example/` unescapes to
   * `https://a.example/@b.example/`, which the pattern matches, so the
   * request is accepted; the value the cookie stores, whose host is
   * b.example once parsed as a URL, is matched by no pattern.
   */
  lemma CheckedAndStoredRedirectDiffer(s: Server.Server, r: Request, unescape: string -> Option<string>)
    requires r.host in s.hosts && r.pathProvider in s.hosts[r.host].providers
    requires s.hosts[r.host].allowedRedirectURLs == ["https://a.example/*"]
    requires Query(r, "redirect") == "https://a.example%2F@b.example/"
    requires unescape("https://a.example%2F@b.example/") == Some("https://a.example/@b.example/")
    ensures var c := Checks(s, r, unescape);
      c.Accepted? &&
      AllowedRedirect(s.hosts[r.host].allowedRedirectURLs, c.decoded) &&
      !AllowedRedirect(s.hosts[r.host].allowedRedirectURLs, c.raw)
  {
    EncodedSlashPassesCheck();
    CheckedOutcomes(s, r, unescape);
  }

  /** The two redirects of `CheckedAndStoredRedirectDiffer` against its allow-list. */
  lemma EncodedSlashPassesCheck()
    ensures var pattern := "https://a.example/*";
      var received := "https://a.example%2F@b.example/";
      var unescaped := "https://a.example/@b.example/";
      AllowedRedirect([pattern], unescaped) && !AllowedRedirect([pattern], received)
  {
    var prefix := "https://a.example/";
    var received := "https://a.example%2F@b.example/";
    var unescaped := "https://a.example/@b.example/";
    var pattern := prefix + "*";
    assert pattern == "https://a.example/*";
    assert '*' !in prefix;
    assert AllowedRedirect([pattern], unescaped) by {
      Wildcard.PrefixStar(prefix, unescaped);
      assert unescaped[..|prefix|] == prefix;
      assert [pattern][0] == pattern;
    }
    assert !AllowedRedirect([pattern], received) by {
      Wildcard.PrefixStar(prefix, received);
      assert received[17] != prefix[17];
    }
  }
}
