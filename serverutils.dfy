/**
 * Request scheme detection, the random state string, and base64url helpers
 * used by the gateway's handlers.
 */
module ServerUtils {
  import opened Wrappers
  import opened Text
  import opened Http
  import Base64

  /**
   * The request scheme: X-Forwarded-Proto, then X-Scheme (each only when
   * non-empty), then "https" when the connection is TLS, else "http".
   */
  function Scheme(r: Request): (s: string)
    ensures Header(r, "X-Forwarded-Proto") != "" ==> s == Header(r, "X-Forwarded-Proto")
    ensures Header(r, "X-Forwarded-Proto") == "" && Header(r, "X-Scheme") != "" ==> s == Header(r, "X-Scheme")
    ensures (Header(r, "X-Forwarded-Proto") == "" && Header(r, "X-Scheme") == "") ==>
      s == (if r.tls then "https" else "http")
    ensures s != ""
  {
    var proto := Header(r, "X-Forwarded-Proto");
    var scheme := Header(r, "X-Scheme");
    if proto != "" then proto
    else if scheme != "" then scheme
    else if r.tls then "https"
    else "http"
  }

  /** `isSecure`: the scheme is exactly "https" (case-sensitive). */
  predicate IsSecure(r: Request) {
    Scheme(r) == "https"
  }

  /** A proxy header in another case does not count: "HTTPS" is not secure, even over TLS. */
  lemma UpperCaseProtoIsNotSecure(r: Request)
    requires Header(r, "X-Forwarded-Proto") == "HTTPS"
    ensures !IsSecure(r)
  {
    assert Scheme(r) == "HTTPS";
    assert Scheme(r)[0] != "https"[0];
  }

  /** Without proxy headers, exactly the TLS connections are secure. */
  lemma SecureWithoutProxyHeaders(r: Request)
    requires Header(r, "X-Forwarded-Proto") == "" && Header(r, "X-Scheme") == ""
    ensures IsSecure(r) <==> r.tls
  {
    if !r.tls {
      assert Scheme(r) == "http";
      assert |"http"| != |"https"|;
    }
  }

  /** The issuer the gateway signs tokens as: `scheme://host`. */
  function Issuer(r: Request): string {
    Scheme(r) + "://" + r.host
  }

  /** The redirect URL the handlers give a provider: `scheme://host/oauth/callback/<provider>`. */
  function CallbackURL(r: Request, provider: string): string {
    Issuer(r) + "/oauth/callback/" + provider
  }

  /**
   * `generateRandomString(length)`: `entropy` stands for what `rand.Read`
   * delivers (None for an error; fewer bytes than asked is a short read,
   * which `rand.Read` also reports as an error). The bytes are encoded with
   * padded URL-safe base64 and cut to `length` characters.
   */
  function GenerateRandomString(length: int, entropy: Option<seq<byte>>): (s: string)
    ensures length <= 0 ==> s == ""
    ensures (entropy.None? || |entropy.value| < length) ==> s == ""
    ensures (length > 0 && entropy.Some? && |entropy.value| >= length) ==>
      |s| == length && (forall i :: 0 <= i < |s| ==> Base64.IsUrlSafe(s[i])) &&
      s == Base64.EncodeRaw(entropy.value[..length])[..length]
  {
    if length <= 0 then ""
    else if entropy.None? || |entropy.value| < length then ""
    else
      var b := entropy.value[..length];
      var encoded := Base64.EncodePadded(b);
      Base64.PaddedPrefixIsAlphabet(b);
      if |encoded| > length then encoded[..length] else encoded
  }

  /** `base64URL`: unpadded base64url, which decodes back to the same bytes. */
  function Base64URL(b: seq<byte>): (s: string)
    ensures Base64.DecodeRaw(s) == Some(b)
    ensures forall i :: 0 <= i < |s| ==> Base64.IsUrlSafe(s[i])
  {
    Base64.DecodeEncodeRaw(b);
    Base64.EncodeRawAlphabet(b);
    Base64.EncodeRaw(b)
  }
}
