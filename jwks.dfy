/**
 * `handlerJwks`: the JSON Web Key Set of a host, holding the public half of
 * its signing key as an RSA key of section 6.3.1 of RFC 7518.
 */
module Jwks {
  import opened Wrappers
  import opened Text
  import opened Http
  import opened ServerUtils
  import BigEndian
  import Base64
  import Server

  /** One JSON Web Key, its members as the handler writes them. */
  datatype Jwk = Jwk(kty: string, use: string, kid: string, alg: string, n: string, e: string)

  /**
   * The response: status, the headers the handler sets, the body of an
   * error, and the keys of the `keys` array on success.
   */
  datatype JwksResponse = JwksResponse(status: int, headers: map<string, string>, body: string, keys: seq<Jwk>)

  /** The headers `http.Error` sets. */
  const ErrorHeaders: map<string, string> :=
    map["Content-Type" := "text/plain; charset=utf-8", "X-Content-Type-Options" := "nosniff"]

  /** The headers of the key set: JSON, cacheable for an hour. */
  const JwksHeaders: map<string, string> :=
    map["Content-Type" := "application/json", "Cache-Control" := "public, max-age=3600"]

  /** Base64urlUInt (section 2 of RFC 7518): base64url of the minimal big-endian octets. */
  function UInt(x: nat): (s: string)
    ensures Base64.DecodeRaw(s) == Some(BigEndian.ToBytes(x))
    ensures BigEndian.FromBytes(Base64.DecodeRaw(s).value) == x
  {
    BigEndian.FromToBytes(x);
    Base64URL(BigEndian.ToBytes(x))
  }

  /** The host's key as a JWK: RSA, for signatures with RS256, named by the host's key ID. */
  function KeyOf(host: Server.HostData): (k: Jwk)
    ensures k.kty == "RSA" && k.use == "sig" && k.alg == "RS256" && k.kid == host.jwtKeyID
    ensures Base64.DecodeRaw(k.n) == Some(BigEndian.ToBytes(host.signKey.n))
    ensures Base64.DecodeRaw(k.e) == Some(BigEndian.ToBytes(host.signKey.e))
  {
    Jwk("RSA", "sig", host.jwtKeyID, "RS256", UInt(host.signKey.n), UInt(host.signKey.e))
  }

  /** `handlerJwks`: an unknown host is a 400 with no keys; a known one has exactly its own key. */
  function HandleJwks(s: Server.Server, r: Request): (resp: JwksResponse)
    ensures r.host !in s.hosts ==> resp == JwksResponse(StatusBadRequest, ErrorHeaders, "Unknown host", [])
    ensures r.host in s.hosts ==>
      resp.status == StatusOK && resp.keys == [KeyOf(s.hosts[r.host])] && resp.headers == JwksHeaders
  {
    if r.host !in s.hosts then JwksResponse(StatusBadRequest, ErrorHeaders, "Unknown host", [])
    else JwksResponse(StatusOK, JwksHeaders, "", [KeyOf(s.hosts[r.host])])
  }

  /**
   * The published `n` and `e` identify the key: decoding them gives back the
   * modulus and the exponent, so two hosts publish the same members exactly
   * when their public keys are equal.
   */
  lemma PublishedKeyDetermined(h1: Server.HostData, h2: Server.HostData)
    ensures KeyOf(h1).n == KeyOf(h2).n <==> h1.signKey.n == h2.signKey.n
    ensures KeyOf(h1).e == KeyOf(h2).e <==> h1.signKey.e == h2.signKey.e
  {
    if KeyOf(h1).n == KeyOf(h2).n {
      BigEndian.ToBytesInjective(h1.signKey.n, h2.signKey.n);
    }
    if KeyOf(h1).e == KeyOf(h2).e {
      BigEndian.ToBytesInjective(h1.signKey.e, h2.signKey.e);
    }
  }

  /** The usual public exponent 65537 is published as "AQAB". */
  lemma F4IsAQAB()
    ensures UInt(65537) == "AQAB"
  {
    BigEndian.ExponentF4();
    var b: seq<byte> := [1, 0, 1];
    assert Base64.EncodeRaw(b) == Base64.Quad(1, 0, 1) + Base64.EncodeRaw([]) by {
      assert b[3..] == [];
    }
    assert Base64.Quad(1, 0, 1) == "AQAB" by {
      assert Base64.CharOf(0) == 'A' && Base64.CharOf(16) == 'Q' && Base64.CharOf(1) == 'B';
    }
  }
}
