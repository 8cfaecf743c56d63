/**
 * The URL- and filename-safe base64 alphabet of section 5 of RFC 4648, as Go's
 * `base64.RawURLEncoding` (no padding) and `base64.URLEncoding` (with '='
 * padding) use it.
 */
module Base64 {
  import opened Wrappers
  import opened Text

  /** The character for a 6-bit value: A-Z, a-z, 0-9, '-', '_'. */
  function CharOf(v: nat): (c: char)
    requires v < 64
    ensures IsUrlSafe(c)
  {
    if v < 26 then ('A' as int + v) as char
    else if v < 52 then ('a' as int + (v - 26)) as char
    else if v < 62 then ('0' as int + (v - 52)) as char
    else if v == 62 then '-'
    else '_'
  }

  /** A character of the URL-safe alphabet (never '=', '+' or '/'). */
  predicate IsUrlSafe(c: char) {
    ('A' <= c <= 'Z') || ('a' <= c <= 'z') || ('0' <= c <= '9') || c == '-' || c == '_'
  }

  /** The 6-bit value of an alphabet character; None for anything else. */
  function ValueOf(c: char): (r: Option<nat>)
    ensures r.Some? <==> IsUrlSafe(c)
    ensures r.Some? ==> r.value < 64 && CharOf(r.value) == c
  {
    if 'A' <= c <= 'Z' then Some(c as int - 'A' as int)
    else if 'a' <= c <= 'z' then Some(c as int - 'a' as int + 26)
    else if '0' <= c <= '9' then Some(c as int - '0' as int + 52)
    else if c == '-' then Some(62)
    else if c == '_' then Some(63)
    else None
  }

  lemma ValueOfCharOf(v: nat)
    requires v < 64
    ensures ValueOf(CharOf(v)) == Some(v)
  {
  }

  // ---------------------------------------------------------------------------
  // Encoding (RawURLEncoding.EncodeToString): every three bytes become four
  // characters; a final group of one or two bytes becomes two or three.
  // ---------------------------------------------------------------------------

  /** The four characters of a full group of three bytes. */
  function Quad(b0: byte, b1: byte, b2: byte): string {
    var x0, x1, x2 := b0 as int, b1 as int, b2 as int;
    [CharOf(x0 / 4), CharOf((x0 % 4) * 16 + x1 / 16), CharOf((x1 % 16) * 4 + x2 / 64), CharOf(x2 % 64)]
  }

  /** The three characters of a final group of two bytes. */
  function Triple(b0: byte, b1: byte): string {
    var x0, x1 := b0 as int, b1 as int;
    [CharOf(x0 / 4), CharOf((x0 % 4) * 16 + x1 / 16), CharOf((x1 % 16) * 4)]
  }

  /** The two characters of a final group of one byte. */
  function Pair(b0: byte): string {
    var x0 := b0 as int;
    [CharOf(x0 / 4), CharOf((x0 % 4) * 16)]
  }

  function EncodeRaw(b: seq<byte>): (r: string)
    ensures |r| == (4 * |b| + 2) / 3
  {
    if |b| == 0 then ""
    else if |b| == 1 then Pair(b[0])
    else if |b| == 2 then Triple(b[0], b[1])
    else Quad(b[0], b[1], b[2]) + EncodeRaw(b[3..])
  }

  /** The '=' characters URLEncoding appends to make the length a multiple of four. */
  function Padding(n: nat): string {
    if n % 3 == 1 then "==" else if n % 3 == 2 then "=" else ""
  }

  /** URLEncoding.EncodeToString: the raw encoding followed by its padding. */
  function EncodePadded(b: seq<byte>): (r: string)
    ensures |r| == 4 * ((|b| + 2) / 3)
    ensures r[..|EncodeRaw(b)|] == EncodeRaw(b)
  {
    PaddedLength(|b|);
    EncodeRaw(b) + Padding(|b|)
  }

  lemma PaddedLength(n: nat)
    ensures (4 * n + 2) / 3 + |Padding(n)| == 4 * ((n + 2) / 3)
  {
    var q, m := n / 3, n % 3;
    assert n == 3 * q + m;
    if m == 0 {
      assert (4 * n + 2) / 3 == 4 * q && (n + 2) / 3 == q;
    } else if m == 1 {
      assert (4 * n + 2) / 3 == 4 * q + 2 && (n + 2) / 3 == q + 1;
    } else {
      assert (4 * n + 2) / 3 == 4 * q + 3 && (n + 2) / 3 == q + 1;
    }
  }

  /** Every character of the raw encoding is in the URL-safe alphabet. */
  lemma {:induction false} EncodeRawAlphabet(b: seq<byte>)
    ensures forall i :: 0 <= i < |EncodeRaw(b)| ==> IsUrlSafe(EncodeRaw(b)[i])
  {
    if |b| > 2 {
      EncodeRawAlphabet(b[3..]);
      var q, t := Quad(b[0], b[1], b[2]), EncodeRaw(b[3..]);
      assert EncodeRaw(b) == q + t;
      forall i | 0 <= i < |q + t| ensures IsUrlSafe((q + t)[i]) {
        if i >= |q| {
          assert (q + t)[i] == t[i - |q|];
        }
      }
    }
  }

  // ---------------------------------------------------------------------------
  // Decoding (RawURLEncoding.DecodeString). Go skips '\r' and '\n', rejects a
  // character outside the alphabet (including '='), rejects a final group of a
  // single character, and, not being in strict mode, ignores the unused low
  // bits of a final group of two or three characters.
  // ---------------------------------------------------------------------------

  function StripNewlines(s: string): (r: string)
    ensures |r| <= |s|
    ensures (forall i :: 0 <= i < |s| ==> s[i] != '\r' && s[i] != '\n') ==> r == s
  {
    if s == [] then []
    else if s[0] == '\r' || s[0] == '\n' then StripNewlines(s[1..])
    else [s[0]] + StripNewlines(s[1..])
  }

  function DecodeGroups(s: string): (r: Option<seq<byte>>)
    ensures r.Some? ==> |r.value| == 3 * |s| / 4
    ensures |s| % 4 == 1 ==> r.None?
  {
    if |s| == 0 then Some([])
    else if |s| == 1 then None
    else
      var v0, v1 := ValueOf(s[0]), ValueOf(s[1]);
      if v0.None? || v1.None? then None
      else if |s| == 2 then
        Some([(v0.value * 4 + v1.value / 16) as byte])
      else
        var v2 := ValueOf(s[2]);
        if v2.None? then None
        else if |s| == 3 then
          Some([(v0.value * 4 + v1.value / 16) as byte, ((v1.value % 16) * 16 + v2.value / 4) as byte])
        else
          var v3 := ValueOf(s[3]);
          if v3.None? then None
          else
            var rest := DecodeGroups(s[4..]);
            if rest.None? then None
            else
              Some([(v0.value * 4 + v1.value / 16) as byte,
                    ((v1.value % 16) * 16 + v2.value / 4) as byte,
                    ((v2.value % 4) * 64 + v3.value) as byte] + rest.value)
  }

  /** `RawURLEncoding.DecodeString`: line breaks are skipped, then the groups are decoded. */
  function DecodeRaw(s: string): (r: Option<seq<byte>>)
    ensures (forall i :: 0 <= i < |s| ==> s[i] != '\r' && s[i] != '\n') ==> r == DecodeGroups(s)
    ensures r.Some? ==> |r.value| <= 3 * |s| / 4
  {
    DecodeGroups(StripNewlines(s))
  }

  // ---------------------------------------------------------------------------
  // Round trip.
  // ---------------------------------------------------------------------------

  lemma SplitByte(x: int, d: int)
    requires 0 <= x < 256 && 0 < d
    ensures x == (x / d) * d + x % d && 0 <= x % d < d
  {
  }

  lemma ThreeBytes(b0: int, b1: int, b2: int)
    requires 0 <= b0 < 256 && 0 <= b1 < 256 && 0 <= b2 < 256
    ensures (b0 / 4) * 4 + ((b0 % 4) * 16 + b1 / 16) / 16 == b0
    ensures (((b0 % 4) * 16 + b1 / 16) % 16) * 16 + ((b1 % 16) * 4 + b2 / 64) / 4 == b1
    ensures (((b1 % 16) * 4 + b2 / 64) % 4) * 64 + b2 % 64 == b2
  {
    SplitByte(b0, 4);
    SplitByte(b1, 16);
    SplitByte(b2, 64);
    var q0, r0 := b0 / 4, b0 % 4;
    var q1, r1 := b1 / 16, b1 % 16;
    var q2, r2 := b2 / 64, b2 % 64;
    assert (r0 * 16 + q1) / 16 == r0 && (r0 * 16 + q1) % 16 == q1;
    assert (r1 * 4 + q2) / 4 == r1 && (r1 * 4 + q2) % 4 == q2;
  }

  /** Decoding the raw encoding gives back the bytes. */
  lemma {:induction false} DecodeEncodeRaw(b: seq<byte>)
    ensures DecodeRaw(EncodeRaw(b)) == Some(b)
  {
    var e := EncodeRaw(b);
    EncodeRawAlphabet(b);
    assert StripNewlines(e) == e by {
      forall i | 0 <= i < |e| ensures e[i] != '\r' && e[i] != '\n' {
        assert IsUrlSafe(e[i]);
      }
    }
    DecodeGroupsEncode(b);
  }

  lemma DecodePair(b0: byte)
    ensures DecodeGroups(Pair(b0)) == Some([b0])
  {
    var x0 := b0 as int;
    ThreeBytes(x0, 0, 0);
    ValueOfCharOf(x0 / 4);
    ValueOfCharOf((x0 % 4) * 16);
    assert ((x0 % 4) * 16) / 16 == x0 % 4;
  }

  lemma DecodeTriple(b0: byte, b1: byte)
    ensures DecodeGroups(Triple(b0, b1)) == Some([b0, b1])
  {
    var x0, x1 := b0 as int, b1 as int;
    ThreeBytes(x0, x1, 0);
    ValueOfCharOf(x0 / 4);
    ValueOfCharOf((x0 % 4) * 16 + x1 / 16);
    ValueOfCharOf((x1 % 16) * 4);
  }

  lemma DecodeQuad(b0: byte, b1: byte, b2: byte, t: string, rest: seq<byte>)
    requires DecodeGroups(t) == Some(rest)
    ensures DecodeGroups(Quad(b0, b1, b2) + t) == Some([b0, b1, b2] + rest)
  {
    var x0, x1, x2 := b0 as int, b1 as int, b2 as int;
    ThreeBytes(x0, x1, x2);
    ValueOfCharOf(x0 / 4);
    ValueOfCharOf((x0 % 4) * 16 + x1 / 16);
    ValueOfCharOf((x1 % 16) * 4 + x2 / 64);
    ValueOfCharOf(x2 % 64);
    assert (Quad(b0, b1, b2) + t)[4..] == t;
  }

  lemma {:induction false} DecodeGroupsEncode(b: seq<byte>)
    ensures DecodeGroups(EncodeRaw(b)) == Some(b)
  {
    if |b| > 2 {
      DecodeGroupsEncode(b[3..]);
      DecodeGroupsStep(b[0], b[1], b[2], b[3..]);
      assert [b[0], b[1], b[2]] + b[3..] == b;
    } else if |b| > 0 {
      DecodeGroupsFinal(b);
    }
  }

  /** One group of three bytes in front of a tail that round-trips. */
  lemma DecodeGroupsStep(b0: byte, b1: byte, b2: byte, tail: seq<byte>)
    requires DecodeGroups(EncodeRaw(tail)) == Some(tail)
    ensures DecodeGroups(EncodeRaw([b0, b1, b2] + tail)) == Some([b0, b1, b2] + tail)
  {
    var b := [b0, b1, b2] + tail;
    assert b[0] == b0 && b[1] == b1 && b[2] == b2 && b[3..] == tail;
    var t := EncodeRaw(tail);
    assert EncodeRaw(b) == Quad(b0, b1, b2) + t;
    DecodeQuad(b0, b1, b2, t, tail);
  }

  /** A final group of one or two bytes. */
  lemma DecodeGroupsFinal(b: seq<byte>)
    requires 0 < |b| <= 2
    ensures DecodeGroups(EncodeRaw(b)) == Some(b)
  {
    if |b| == 1 {
      assert b == [b[0]];
      DecodePair(b[0]);
    } else {
      assert b == [b[0], b[1]];
      DecodeTriple(b[0], b[1]);
    }
  }

  /** The encoding is injective, so the published strings identify the bytes. */
  lemma EncodeRawInjective(a: seq<byte>, b: seq<byte>)
    requires EncodeRaw(a) == EncodeRaw(b)
    ensures a == b
  {
    DecodeEncodeRaw(a);
    DecodeEncodeRaw(b);
  }

  /** The first |b| characters of the padded encoding are never padding. */
  lemma PaddedPrefixIsAlphabet(b: seq<byte>)
    ensures |EncodeRaw(b)| >= |b|
    ensures forall i :: 0 <= i < |b| ==> EncodePadded(b)[i] == EncodeRaw(b)[i] && IsUrlSafe(EncodePadded(b)[i])
  {
    EncodeRawAlphabet(b);
  }
}
