/**
 * The parts of an HTTP exchange the gateway looks at or writes. Headers are
 * keyed by their canonical MIME form (Go's `Header.Get` canonicalises the
 * name it is given, so `"X-Real-IP"` is looked up as `"X-Real-Ip"`); the query
 * and the header maps hold the first value of each name, which is what
 * `Get` returns.
 */
module Http {

  datatype Request = Request(
    host: string,                   // the Host header, `r.Host`
    path: string,                   // `r.URL.Path`
    pathProvider: string,           // `r.PathValue("provider")`
    header: map<string, string>,
    query: map<string, string>,
    cookies: map<string, string>,   // cookie name to value
    tls: bool,                      // `r.TLS != nil`
    remoteAddr: string)

  /** `r.Header.Get(name)`: "" when the header is absent. */
  function Header(r: Request, name: string): string {
    if name in r.header then r.header[name] else ""
  }

  /** `r.URL.Query().Get(name)`: "" when the parameter is absent. */
  function Query(r: Request, name: string): string {
    if name in r.query then r.query[name] else ""
  }

  datatype SameSite = SameSiteDefault | SameSiteLax | SameSiteStrict | SameSiteNone

  /** An `http.Cookie` as the handlers set it. */
  datatype Cookie = Cookie(
    name: string,
    value: string,
    path: string,
    domain: string,
    maxAge: int,
    httpOnly: bool,
    secure: bool,
    sameSite: SameSite)

  const StatusOK: int := 200
  const StatusFound: int := 302
  const StatusSeeOther: int := 303
  const StatusBadRequest: int := 400
  const StatusUnauthorized: int := 401
  const StatusNotFound: int := 404
  const StatusTooManyRequests: int := 429
  const StatusInternalServerError: int := 500
}
