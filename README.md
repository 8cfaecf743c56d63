# lana: an OAuth login gateway, modelled in Dafny

lana is a login gateway that sits in front of a family of applications on
subdomains of one parent host. A browser is sent to the gateway's login
route (`/oauth/login/{provider}?redirect=...`). The gateway then:

- checks the redirect against the host's allow-list;
- stores a random state and the redirect in an AES-GCM encrypted state
  cookie;
- sends the browser to the provider (Google over OpenID Connect, or
  Facebook).

On the callback route (`/oauth/callback/{provider}`), the gateway:

- compares the returned state with the cookie's;
- exchanges the code and resolves the user;
- signs an RS256 JWT for the user's email;
- redirects to the stored redirect with the token added.

Every host publishes its public key as a JSON Web Key Set at
`/.well-known/jwks.json`. A per-client token-bucket rate limiter guards the
flow routes. The configuration is completed with defaults at start-up, and
the logging setup shortens the source paths in log records. An example
application verifies the gateway's tokens against the published key set and
keeps the subject in a session cookie.

The model, one module per source file:

- `statecodec.dfy`: base64url of nonce ‖ Seal(json).
- `login.dfy` and `callback.dfy`: the login and callback handlers.
- `jwks.dfy`: the key set.
- `serverutils.dfy`: scheme detection, the random state and base64url.
- `server.dfy`: building the per-host data and the route table.
- `config.dfy`: the defaults.
- `oauth.dfy`: the provider registry.
- `google.dfy`, `facebook.dfy`: the two providers. `oauth2.dfy` holds the
  parts of the oauth2 client they share.
- `ratelimit.dfy`: the limiter.
- `logging.dfy`: the logging setup.
- `exampleapp.dfy`: the example application.

Supporting modules:

- `base64.dfy`: the base64url alphabet of section 5 of RFC 4648.
- `bigendian.dfy`: big-endian octets, as section 2 of RFC 7518 uses them.
- `wildcard.dfy`: the allow-list glob.
- `text.dfy`: the string functions of the Go library that the code calls.
- `http.dfy`: requests, cookies and status codes.
- `wrappers.dfy`: Option and Result.

Collaborators whose code is not part of this model are parameters of the
operations, written as function values. These are:

- AES-GCM and JSON;
- `url.QueryUnescape` and `url.Parse`;
- RSA signing, `jwk.Fetch` and `jwt.Parse`;
- the providers' network calls;
- `slog` level parsing;
- `securecookie`.

The laws the real implementations satisfy are stated as predicates and
required only by the lemmas that need them. For example, opening what was
sealed gives the plaintext back, and unmarshalling what was marshalled gives
the record back.

## Model

| member | source | states |
|---|---|---|
| Base64.EncodeRaw | internal/server/utils.go:51-53 | unpadded base64url: the output has ceil(4n/3) characters for n bytes |
| Base64.EncodePadded | internal/server/utils.go:42 | padded base64url: the length is rounded up to a multiple of four, and the raw encoding is its prefix |
| Base64.EncodeRawAlphabet | internal/server/utils.go:51-53 | every character of the raw encoding is in the URL-safe alphabet |
| Base64.DecodeRaw | internal/server/state.go:50-53 | text without line breaks is decoded group by group, and the output has at most 3 bytes per 4 characters |
| Base64.DecodeGroups | internal/server/state.go:50-53 | decoding yields 3 bytes per 4 characters, and a final group of one character is rejected |
| Base64.DecodeEncodeRaw | internal/server/state.go:46-53 | decoding the raw encoding gives back the bytes |
| Base64.DecodeGroupsEncode | internal/server/state.go:46-53 | the group decoder inverts the encoder, by induction over groups of three bytes |
| Base64.EncodeRawInjective | internal/server/handler_jwks.go:18-19 | distinct byte strings have distinct encodings |
| Base64.PaddedPrefixIsAlphabet | internal/server/utils.go:42-48 | the first n characters of the padded encoding of n bytes are alphabet characters, never '=' |
| BigEndian.ToBytes | internal/server/handler_jwks.go:18-19 | `big.Int.Bytes()`: octets with no leading zero, and empty exactly for 0 |
| BigEndian.FromToBytes | internal/server/handler_jwks.go:18-19 | reading the octets back as a big-endian integer gives the integer |
| BigEndian.ToFromBytes | internal/server/handler_jwks.go:18-19 | a minimal octet string is the ToBytes of the integer it denotes |
| BigEndian.ToBytesInjective | internal/server/handler_jwks.go:18-19 | distinct integers publish distinct octet strings |
| BigEndian.ExponentF4 | internal/server/handler_jwks.go:19 | 65537 is the octets 01 00 01 |
| ServerUtils.Scheme | internal/server/utils.go:11-25 | X-Forwarded-Proto, then X-Scheme (each only when non-empty), then https on TLS, else http; never empty |
| ServerUtils.UpperCaseProtoIsNotSecure | internal/server/utils.go:27-29 | `isSecure` compares case-sensitively: a forwarded "HTTPS" is not secure |
| ServerUtils.SecureWithoutProxyHeaders | internal/server/utils.go:11-29 | without proxy headers, a request is secure exactly when it is on TLS |
| ServerUtils.GenerateRandomString | internal/server/utils.go:31-49 | "" for a non-positive length or a failed read; otherwise exactly `length` URL-safe characters, the prefix of the encoding of the random bytes |
| ServerUtils.Base64URL | internal/server/utils.go:51-53 | the result decodes back to the bytes and uses only the URL-safe alphabet |
| StateCodec.Encrypt | internal/server/state.go:18-47 | an AES key of the wrong length is CipherError, a failed nonce read NonceError; on success the value decodes to nonce ‖ Seal(key, nonce, json{state, redirect}) |
| StateCodec.Decrypt | internal/server/state.go:49-82 | base64 is checked first (DecodeError), then the key (CipherError), then the length (TooShort); a success means Open succeeded and the plaintext unmarshals to the returned pair; an error returns empty strings |
| StateCodec.DecryptEncrypt | internal/server/state.go:18-82 | under the AEAD and JSON laws, decrypting what was encrypted under the same key gives back the state and redirect |
| StateCodec.EnvelopeStartsWithNonce | internal/server/state.go:36-46 | the first 12 decoded octets of the envelope are the random nonce |
| StateCodec.AcceptedIsSealed | internal/server/state.go:69-81 | under AEAD authenticity, an accepted cookie is Seal(key, nonce, p) for a p that unmarshals to the returned record |
| StateCodec.RejectsUnauthenticated | internal/server/state.go:71-74 | a ciphertext that fails Open yields AuthError and no record |
| StateCodec.RejectsNonRecord | internal/server/state.go:76-79 | a plaintext that is not the JSON record yields UnmarshalError and no record |
| StateCodec.BadKeyFailsBoth | internal/server/state.go:24-27 | a key that is not 16, 24 or 32 octets long makes both encryption and decryption fail |
| StateCodec.DecodeCheckedFirst | internal/server/state.go:50-53 | input containing '=' is a DecodeError whatever the key |
| StateCodec.DecodeRejects | internal/server/state.go:50-53 | a character outside the alphabet anywhere makes decoding fail |
| Jwks.UInt | internal/server/handler_jwks.go:16-19 | Base64urlUInt: the string decodes to the minimal octets, which read back as the integer |
| Jwks.KeyOf | internal/server/handler_jwks.go:21-32 | the host's JWK: kty RSA, use sig, alg RS256, kid the host's key ID, and n and e decode to the key's modulus and exponent |
| Jwks.HandleJwks | internal/server/handler_jwks.go:9-40 | an unknown host is a 400 "Unknown host" with no keys; a known one is 200 with exactly its own key and the JSON and cache headers |
| Jwks.PublishedKeyDetermined | internal/server/handler_jwks.go:16-32 | two hosts publish the same n (or e) exactly when their moduli (or exponents) are equal |
| Jwks.F4IsAQAB | internal/server/handler_jwks.go:19 | the exponent 65537 is published as "AQAB" |
| LoginHandler.StateCookie | internal/server/handler_login.go:67-75 | the cookie has path "/", HttpOnly, SameSite Lax and one hour max-age, and is Secure exactly on https |
| LoginHandler.Checks | internal/server/handler_login.go:13-47 | an unknown host is a 400 "Unknown host"; an accepted request names the configured provider, a non-empty raw redirect and its unescaping, which the allow-list matches |
| LoginHandler.CheckedOutcomes | internal/server/handler_login.go:13-47 | a rejection is a 400, or a 404 exactly for an unknown provider of a known host, with no cookie; a request is accepted iff the host and provider are known and the redirect is present, unescapes, and matches the allow-list |
| LoginHandler.CheckRequest | internal/server/handler_login.go:13-47 | the checks in the handler's order, with the allow-list loop stopping at the first match |
| LoginHandler.IssueState | internal/server/handler_login.go:49-84 | an empty state or a failed encryption is a 500; otherwise a 302 to the provider's consent URL with the state and the callback URL, setting the encrypted state cookie |
| LoginHandler.IssuedCookieDecrypts | internal/server/handler_login.go:49-84 | under the AEAD and JSON laws, the issued cookie decrypts to the state sent to the provider and to the stored redirect |
| LoginHandler.HandleLogin | internal/server/handler_login.go:12-85 | the handler as written: rejected requests get the check's response, and the cookie stores the redirect exactly as received |
| LoginHandler.HandleLoginStoringChecked | internal/server/handler_login.go:12-85 | the corrected handler: the redirect the cookie stores is one the allow-list matches |
| LoginHandler.CheckedAndStoredRedirectDiffer | internal/server/handler_login.go:31-65 | with pattern `https://a.example/*`, the encoded redirect `https://a.example%2F@b.example/` is accepted although the stored value matches no pattern |
| LoginHandler.EncodedSlashPassesCheck | internal/server/handler_login.go:37-47 | the allow-list matches the unescaped value and not the value as received |
| CallbackHandler.DeleteCookie | internal/server/handler_callback.go:161-168 | the state cookie is deleted: same name, path "/", empty value, negative max-age, Secure exactly on https |
| CallbackHandler.HandleCallback | internal/server/handler_callback.go:14-183 | the status is one of 303, 400, 401, 404 and 500; success is exactly the recorded success metric, the Location and the token; metrics name the provider and host; the delete cookie is sent only on success or on a redirect that fails to parse |
| CallbackHandler.Complete | internal/server/handler_callback.go:93-182 | the same for the steps after the request's own checks, and a signing failure is a 500 with no cookie and no metric |
| CallbackHandler.CompleteSucceeded | internal/server/handler_callback.go:93-182 | a success exchanged the code and found a user with an email; the token is the one built for that user and delivered to the redirect, and the state cookie is deleted |
| CallbackHandler.EarlyFailures | internal/server/handler_callback.go:15-69 | an unknown host is a 400, an unknown provider a 404, a bad state cookie a 400 with no metric; a state mismatch is reported whatever the error and code parameters say |
| CallbackHandler.ProviderFailures | internal/server/handler_callback.go:71-132 | after the state check, in order: the error parameter (user_denied), a missing code, the exchange (400, provider_error), getUser (401, provider_error) and a missing email (401, email_missing) |
| CallbackHandler.SuccessfulCallback | internal/server/handler_callback.go:14-183 | a 303 passed every check; its token is the gateway's token for the resolved user, and the browser goes to the cookie's redirect with the signed token added |
| CallbackHandler.Claims | internal/server/handler_callback.go:134-145 | exactly iss, aud, sub, email, exp and iat, plus name when the user has one; sub and email are the email, exp = now + expiry in whole seconds, iat = now |
| CallbackHandler.AppToken | internal/server/handler_callback.go:147-148 | the header is exactly alg RS256, typ JWT and the host's key ID, over the given claims |
| CallbackHandler.ClaimsContents | internal/server/handler_callback.go:134-148 | sub and email are the user's email, aud is the host's audience, iss the gateway, exp = now + expiry and iat = now; name is present only when the provider gave one; no other claim appears; the header names RS256 and the key ID |
| CallbackHandler.SigningFailureKeepsCookie | internal/server/handler_callback.go:150-159 | a signing failure is a 500 that keeps the state cookie and records no metric |
| CallbackHandler.CookieCarriesState | internal/server/handler_login.go:49-75 | after a login the callback reads back the stored redirect, passes the state check when that redirect is non-empty, and on success redirects there |
| CallbackHandler.SignInAsWritten | internal/server/handler_callback.go:170-182 | login followed by the callback, as written: a successful sign-in redirects to the `redirect` parameter exactly as received |
| CallbackHandler.SignIn | internal/server/handler_callback.go:170-182 | with the corrected login handler, a successful sign-in redirects only to a URL the host's allow-list matches |
| Server.BuiltProviders | internal/server/server.go:72-92 | a host's providers are exactly the configured ones whose creation succeeds |
| Server.New | internal/server/server.go:48-144 | the nil checks and the empty-hosts check come first; the server is built exactly when every host loads its key, creates some provider and parses its expiry; any other error names a host whose step failed |
| Server.CreateProviders | internal/server/server.go:72-92 | the provider loop creates every configured provider and skips the ones that fail |
| Server.BuiltHostHasProviders | internal/server/server.go:94-96 | every built host has at least one provider, each of them configured for it |
| Server.MetricsPath | internal/server/server.go:159-199 | the metrics path defaults to "/metrics" and is never empty |
| Server.Routes | internal/server/server.go:159-199 | the five application routes, all rate-limited except the health check, plus an unlimited metrics route exactly when metrics are enabled |
| Config.Defaulted | internal/config/config.go:115-153 | the result has no zero defaulted field, a complete configuration is unchanged, and the hosts and the cookie secret are kept |
| Config.DefaultValues | internal/config/config.go:115-153 | the zero values become production, 8080, oauth_state, 60, 5 minutes, info and text, and "/metrics" when metrics are enabled |
| Config.KeepsSetFields | internal/config/config.go:115-153 | non-zero values are kept, and the secret, forwarded-for index, metrics switches and hosts are never touched |
| Config.DefaultedComplete | internal/config/config.go:115-153 | the result has no zero defaulted field, and a configuration is unchanged exactly when it already had none |
| Config.DefaultedIdempotent | internal/config/config.go:115-153 | applying the defaults twice equals applying them once |
| Config.Config.constructor | internal/config/config.go:21-45 | the object holds the parsed configuration |
| Config.Config.ApplyDefaults | internal/config/config.go:115-153 | the new state is the defaulted snapshot of the old one |
| OAuth.Registry.constructor | internal/oauth/provider.go:42-46 | a new registry has no factory |
| OAuth.Registry.Register | internal/oauth/provider.go:48-51 | registering sets that name's factory and changes Create for no other name |
| OAuth.Registry.Create | internal/oauth/provider.go:53-67 | an unknown type is "unknown provider type: ..."; a known one returns its factory's result, error included |
| OAuth.ReRegisterOverwrites | internal/oauth/provider.go:48-67 | of two registrations under one name, only the second is used |
| OAuth.Middleware | internal/oauth/provider.go:69-73 | the middleware passes every request to the next handler unchanged |
| OAuth2.WithRedirect | internal/providers/google/google.go:55-89 | the handler's call uses a copy with its redirect URL, and that copy differs from the stored configuration in nothing else |
| Google.New | internal/providers/google/google.go:27-53 | fails exactly when discovery fails, with the wrapped message; otherwise it has the client credentials, the email and profile scopes, and no redirect URL |
| Google.GetAuthURL | internal/providers/google/google.go:55-61 | the client's consent URL for the stored configuration with only its redirect URL replaced, asking for offline access and forced approval |
| Google.ExchangeCode | internal/providers/google/google.go:63-89 | an exchange error is wrapped; a token carries its fields, and the id_token when there is one |
| Google.StoredRedirectIgnored | internal/providers/google/google.go:55-89 | the consent URL and the exchange do not depend on the stored redirect URL |
| Google.FetchUserInfo | internal/providers/google/google.go:165-204 | transport errors and non-200 statuses are errors; the body is cut to 1 MiB before it is decoded |
| Google.ResolveUser | internal/providers/google/google.go:91-159 | an empty ID token is the first error; a resolved user has a verified ID token, claims with a verified email, the claims' subject as ID, and every non-empty claim |
| Google.Fill | internal/providers/google/google.go:143-156 | a non-empty claim wins over userinfo |
| Google.GetUser | internal/providers/google/google.go:91-159 | the method computes the user ResolveUser describes |
| Google.NoIdTokenFailsFirst | internal/providers/google/google.go:92-95 | an empty ID token fails whatever the other services answer |
| Google.ClaimsDecide | internal/providers/google/google.go:114-141 | verification and claims failures are errors, as is an unverified email; a user has the claims' subject as ID and keeps every non-empty claim |
| Google.UserInfoOnlyWhenNeeded | internal/providers/google/google.go:137-156 | userinfo matters only when a claim is missing and there is an access token; its failure is an error and its values fill only the empty claims |
| Google.AsProvider | internal/oauth/provider.go:26-34 | the registered provider's functions are the Google ones |
| Facebook.New | internal/providers/facebook/facebook.go:30-42 | the client credentials, the email and public_profile scopes, and no redirect URL |
| Facebook.GetAuthURL | internal/providers/facebook/facebook.go:44-50 | the client's consent URL for the stored configuration with only its redirect URL replaced, asking for offline access only |
| Facebook.ExchangeCode | internal/providers/facebook/facebook.go:52-74 | an exchange error is wrapped; a token carries its fields, with no ID token |
| Facebook.StoredRedirectIgnored | internal/providers/facebook/facebook.go:44-74 | the consent URL and the exchange do not depend on the stored redirect URL |
| Facebook.FetchUserInfo | internal/providers/facebook/facebook.go:117-149 | request creation, transport, status, body and decoding errors, each with its own message |
| Facebook.GetUser | internal/providers/facebook/facebook.go:76-111 | a fetched user needs an email (checked first) and an ID, and the result copies its ID, email and name |
| Facebook.AsProvider | internal/oauth/provider.go:26-34 | the registered provider's functions are the Facebook ones |
| RateLimit.Split | internal/ratelimit/limiter.go:150-159 | splitting yields at least one piece |
| RateLimit.SplitCount | internal/ratelimit/limiter.go:150-159 | there is one piece more than there are commas |
| RateLimit.SplitPiecesCommaFree | internal/ratelimit/limiter.go:150-159 | no piece contains a comma |
| RateLimit.JoinSplit | internal/ratelimit/limiter.go:150-159 | joining the pieces with ',' gives back the input |
| RateLimit.SplitJoin | internal/ratelimit/limiter.go:150-159 | splitting the join of comma-free pieces gives back the pieces |
| RateLimit.SplitCSV | internal/ratelimit/limiter.go:150-159 | the index loop computes Split |
| RateLimit.Negate64 | internal/ratelimit/limiter.go:138 | Go's 64-bit negation: exact inside the range, and the smallest int negates to itself |
| RateLimit.XffIndex | internal/ratelimit/limiter.go:130-142 | a non-negative index in range counts from the front, a negative one of magnitude at most n from the back, and anything else falls back to 0; the smallest int passes the wrapped magnitude test and is an index-out-of-range panic |
| RateLimit.ClientIP | internal/ratelimit/limiter.go:118-148 | CF-Connecting-IP, then X-Real-IP, then the chosen X-Forwarded-For entry, then the peer address; an empty header counts as absent; the forwarded entry panics only for the smallest index |
| RateLimit.ClientIPFromForwardedChain | internal/ratelimit/limiter.go:126-145 | for an index in Go's int range, taking the address from X-Forwarded-For panics exactly for the smallest int; otherwise the address is one of its comma-free entries |
| RateLimit.Key | internal/ratelimit/limiter.go:49 | the key has its two separators at the positions after the IP and after the host |
| RateLimit.KeyInjective | internal/ratelimit/limiter.go:49 | when the IP and host contain no '\|', the key determines all three parts |
| RateLimit.FreshBucket | internal/ratelimit/limiter.go:51-56 | a new bucket is full, with burst equal to the requests per minute |
| RateLimit.Admit | internal/ratelimit/limiter.go:51-70 | the key's bucket is created if absent and never replaced; a request is allowed iff a token is left, which it consumes; other keys are untouched |
| RateLimit.Run | internal/ratelimit/limiter.go:45-72 | n admissions give n outcomes |
| RateLimit.RunFromTokens | internal/ratelimit/limiter.go:51-70 | a bucket holding t tokens admits exactly the first t of back-to-back requests |
| RateLimit.Saturation | internal/ratelimit/limiter.go:51-70 | with no time elapsing, a new key gets N allowed requests and then a rejection |
| RateLimit.Sweep | internal/ratelimit/limiter.go:90-112 | the sweep drops the full buckets and keeps the others unchanged |
| RateLimit.SweepCounts | internal/ratelimit/limiter.go:90-112 | the swept store has as many entries as there were, less the full ones |
| RateLimit.SweepExact | internal/ratelimit/limiter.go:90-112 | a store that keeps exactly the non-full entries equals the sweep |
| RateLimit.RateLimiter.constructor | internal/ratelimit/limiter.go:31-43 | an empty store, with the configured rate, interval and index |
| RateLimit.RateLimiter.LoadOrStore | internal/ratelimit/limiter.go:51-56 | an existing bucket is returned untouched; otherwise the new one is stored |
| RateLimit.RateLimiter.Limit | internal/ratelimit/limiter.go:45-72 | the store becomes Admit's; an allowed request calls next once, and a rejected one is a 429 "Rate limit exceeded" that never calls it; a panic while choosing the IP leaves the store unchanged and never calls next |
| RateLimit.RateLimiter.Cleanup | internal/ratelimit/limiter.go:90-112 | the store becomes the sweep of the old one; count is the number of entries visited and removed the number of full ones |
| Logging.AfterFirstMarker | internal/logging/setup.go:45-57 | the text after the last occurrence of the first marker found, else the base name |
| Logging.StripVersion | internal/logging/setup.go:36-41 | the text from '@' up to the next '/' is removed, and the path is unchanged without both |
| Logging.CleanPath | internal/logging/setup.go:31-59 | the module cache first, then the build directory, then the repository markers |
| Logging.SecondMarkerRedundant | internal/logging/setup.go:45-57 | the second marker, "/projects/lana/", never changes the result |
| Logging.RepoPathCleaning | internal/logging/setup.go:45-59 | outside the cache and build directories, the path after the last "/lana/", else the base name |
| Logging.Source.constructor | internal/logging/setup.go:31-34 | the source record holds its file, line and function |
| Logging.RewriteSource | internal/logging/setup.go:31-59 | the file becomes its cleaned path; the line and function are unchanged |
| Logging.ModulePath | internal/logging/setup.go:35-42 | the module-cache branch computes StripVersion |
| Logging.RepoRelative | internal/logging/setup.go:45-57 | the marker loop computes AfterFirstMarker |
| Logging.ReplaceAttr | internal/logging/setup.go:22-63 | the time becomes a UTC string and the source has its file cleaned; every other attribute is unchanged |
| Logging.Setup | internal/logging/setup.go:12-84 | a level error panics first, then an unknown format; json picks the JSON handler, and text picks the console handler exactly in development |
| Logging.FormatCaseInsensitive | internal/logging/setup.go:66 | formats equal up to the case of letters install the same handler |
| Text.Utf8Length | example/app/main.go:36-38 | the UTF-8 length equals the character count exactly for ASCII |
| Text.ToLowerAscii | internal/logging/setup.go:66 | each upper-case ASCII letter is lowered, and everything else is kept |
| Wildcard.Match | internal/server/handler_login.go:37-47 | the empty pattern matches only the empty string, a pattern starting with a literal only strings starting with it, and the empty string only all-'*' patterns |
| Wildcard.LiteralMatch | internal/server/handler_login.go:37-47 | a pattern without '*' matches exactly itself |
| Wildcard.StarMatchesAll | internal/server/handler_login.go:37-47 | a lone '*' matches everything |
| Wildcard.PrefixStar | internal/server/handler_login.go:37-47 | `prefix*` matches exactly the strings starting with prefix |
| ExampleApp.StartupError | example/app/main.go:31-38 | the variables are required in the order PARENT_HOSTNAME, COOKIE_SECRET, APP_PORT, then a secret of at least 32 bytes; the start-up succeeds iff all four hold |
| ExampleApp.SecretLengthInBytes | example/app/main.go:36-38 | the secret is measured in bytes: 32 characters suffice, and 31 do when one is not ASCII |
| ExampleApp.JwksURL | example/app/main.go:248-252 | the issuer, a '/' unless it already ends with one, then `.well-known/jwks.json` |
| ExampleApp.Extract | example/app/main.go:268 | a key extracts iff its modulus and exponent both decode as base64url, and they are read as big-endian integers |
| ExampleApp.FirstSuitable | example/app/main.go:261-274 | some key is found iff there is a suitable one that extracts, and the one found is the first such |
| ExampleApp.FetchPublicKey | example/app/main.go:247-275 | the method returns the first suitable key of the fetched set, or the fetch or no-key error |
| ExampleApp.GatewayKeySelected | example/app/main.go:247-275 | on the gateway's key set, it finds the gateway's modulus and exponent |
| ExampleApp.JwksURLOfGateway | example/app/main.go:248-252 | the URL it derives from the gateway's issuer is the gateway's JWKS route |
| ExampleApp.PublicKeyFor | example/app/main.go:254-274 | a fetch error is wrapped; otherwise a key is found iff some suitable key extracts, the key found is one of those, and the failure is "no suitable RSA key found in JWKS" |
| ExampleApp.StringClaim | example/app/main.go:190-193 | an absent claim is "", a non-string one is an error naming the claim, and a non-empty result is the claim's string |
| ExampleApp.Verify | example/app/main.go:178-202 | the empty-token and format errors come first, then a missing issuer, then an untrusted issuer host under the given test; an accepted subject is non-empty |
| ExampleApp.VerifySigned | example/app/main.go:203-244 | a key failure is wrapped; an accepted token verifies with the issuer's key, has exp not before now and returns its non-empty subject |
| ExampleApp.JWTVerifyAsWritten | example/app/main.go:178-245 | as written: an accepted token's issuer host ends with the parent host name, and the result is that of the signed checks |
| ExampleApp.VerifiedMeans | example/app/main.go:178-245 | an accepted token has a valid, trusted issuer and passes the signed checks; an untrusted issuer is refused before any key is fetched |
| ExampleApp.JWTVerify | example/app/main.go:178-245 | with the intended issuer check: an accepted token has an issuer claim whose host is the parent or a name below it, and the result is that of the signed checks |
| ExampleApp.SignedMeans | example/app/main.go:203-244 | accepted iff the key is found, the signature verifies, exp is not before now and the subject is non-empty; the result is the subject |
| ExampleApp.TrustedIsStricter | example/app/main.go:199-202 | the intended check implies the one written and accepts every subdomain of the parent |
| ExampleApp.LookalikeIssuerAccepted | example/app/main.go:190-202 | where the two checks disagree, the as-written function accepts what the signed checks accept, and the corrected one refuses |
| ExampleApp.LookalikeHost | example/app/main.go:199-202 | "evilexample.com" passes the written check for "example.com" and fails the intended one |
| ExampleApp.SessionCookie | example/app/main.go:139-148 | the session cookie has path "/", HttpOnly, Secure, Lax, one hour, and the request's host as domain |
| ExampleApp.HandleCallbackWith | example/app/main.go:118-151 | for a given issuer test: no token is a 400 and a token that fails verification a 401; a 302 sets the session cookie for the verified subject exactly when verification and encoding succeed |
| ExampleApp.HandleCallback | example/app/main.go:118-151 | as written, over JWTVerify's suffix check: a session cookie for the verified subject is set exactly when that verification and the encoding succeed |
| ExampleApp.HandleCallbackChecked | example/app/main.go:118-151 | over the intended issuer check: a session is granted only for a token whose issuer host is the parent or a name below it |
| ExampleApp.LookalikeSessionGranted | example/app/main.go:118-151 | a token from a lookalike issuer host that passes the signed checks gets a session cookie as written and a 401 when corrected |
| ExampleApp.HandleLogout | example/app/main.go:153-165 | a 302 to "/" that overwrites the session cookie with an expired empty one |
| ExampleApp.LoginRedirect | example/app/main.go:167-176 | a 302 to `auth.<parent>` with this application's callback as the escaped redirect |
| ExampleApp.LoginHostTrusted | example/app/main.go:167-202 | the gateway host it redirects to passes both issuer checks |

## Left out

- Token-bucket refill: a bucket's tokens are an integer that only admissions consume. Refill at `rate.Every(minute / N)` and the float comparison in cleanup are not modelled, and the sequential store stands for `sync.Map`.
- The cleanup timer loop (`cleanupLoop`) and `Shutdown`: they are goroutine and channel plumbing around `cleanup`, which is modelled.
- RateLimit.RateLimiter.constructor: requires a positive requests-per-minute, which the configuration validator guarantees. The source would divide by zero otherwise.
- AES-GCM, RSA signing, JWT serialisation, JSON, `securecookie`, `url.QueryUnescape`, `url.QueryEscape` and `url.Parse`: these are function values. Their laws are predicates where a lemma needs them.
- Wildcard.Match: only '*' is a metacharacter. The pattern library's other metacharacters are not modelled.
- Text.ToLowerAscii: `strings.ToLower` is modelled for ASCII only.
- Header canonicalisation: headers are looked up under their canonical names.
- Google OIDC discovery, the ID-token verifier and every network request: these are parameters that answer with the network's outcome. The request context and cancellation are not modelled.
- `writeJSON` failures, and the bodies that `http.Redirect` and `http.Error` write.
- The root handlers of the gateway and of the example application: they render HTML.
- The metrics, logging and recovery middleware, metrics collection, graceful shutdown, and Go's duplicate-route panic.
- `config.New`: reading the file, environment substitution, YAML parsing and validation. Only `applyDefaults` is modelled.
- `cmd/server/main.go`, and debug log lines.
- `loadSigningKey` and `time.ParseDuration`: function values in Server.New.
- Go's map iteration order is arbitrary, so the host and provider loops pick the next element nondeterministically.
- Logging.Setup: `slog` level parsing is a parameter.
- Logging.ReplaceAttr: time formatting is a parameter. The handlers' output formats are not modelled.
- Google.FetchUserInfo: the response body is one read outcome. A read error past the first MiB fails the model, but the source never reads that far.
- CallbackHandler.Claims: the current time is whole seconds, and the token's expiry is the duration floored to seconds.
- ExampleApp.Extract: models `key.Raw` as base64url decoding plus big-endian reading. It does not model the JWK library's checks of the key's other members.
- ExampleApp.VerifySigned: `exp` is an integer claim. `token.Valid` is folded into the success of `jwt.Parse`.
- The "invalid token claims" branch of `JWTVerify` is not modelled, because the claims type assertion cannot fail on `jwt.Parse`'s `MapClaims`.
- OAuth2.Config: the endpoint is the provider's name, not the URLs.

## Findings

| source | as written | input that shows it | evidently intended | confidence | as-written member | corrected member |
|---|---|---|---|---|---|---|
| internal/server/handler_login.go:31-65 | the allow-list is checked against the unescaped `redirect`, but the cookie stores the raw value, to which the callback later redirects (internal/server/handler_callback.go:170-182) | pattern `https://a.example/*`, redirect `https://a.example%2F@b.example/`: it unescapes to `https://a.example/@b.example/`, which matches, while the stored value, whose host is b.example, matches no pattern | store the redirect that was checked, so that the callback only redirects to an allowed URL | not executed | LoginHandler.CheckedAndStoredRedirectDiffer | LoginHandler.HandleLoginStoringChecked |
| example/app/main.go:199-202 | the issuer is trusted when its host name ends with the parent host name as a plain string suffix | issuer host `evilexample.com` with parent `example.com` | trust the parent itself or a name below it (suffix "." + parent) | not executed | ExampleApp.LookalikeIssuerAccepted | ExampleApp.JWTVerify |
