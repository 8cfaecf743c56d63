/**
 * String and byte helpers with the meaning the Go standard library gives them:
 * `[]byte(s)` (UTF-8), `strings.Index`, `strings.LastIndex`, `strings.HasSuffix`,
 * `strings.ToLower` restricted to ASCII, and `filepath.Base` on a Unix system.
 */
module Text {
  import opened Wrappers

  /** One octet. */
  newtype byte = x: int | 0 <= x < 256

  // ---------------------------------------------------------------------------
  // UTF-8: Go converts a string to bytes by encoding it as UTF-8.
  // ---------------------------------------------------------------------------

  /** The UTF-8 encoding of one Unicode scalar value. */
  function Utf8Char(c: char): (r: seq<byte>)
    ensures 1 <= |r| <= 4
    ensures (|r| == 1) <==> (c as int < 0x80)
  {
    var cp := c as int;
    if cp < 0x80 then [cp as byte]
    else if cp < 0x800 then [(0xC0 + cp / 64) as byte, (0x80 + cp % 64) as byte]
    else if cp < 0x10000 then
      [(0xE0 + cp / 4096) as byte, (0x80 + (cp / 64) % 64) as byte, (0x80 + cp % 64) as byte]
    else
      [(0xF0 + cp / 262144) as byte, (0x80 + (cp / 4096) % 64) as byte,
       (0x80 + (cp / 64) % 64) as byte, (0x80 + cp % 64) as byte]
  }

  /** `[]byte(s)`: the UTF-8 encoding of a whole string. */
  function Utf8(s: string): (r: seq<byte>)
    ensures |r| >= |s|
  {
    if s == [] then [] else Utf8Char(s[0]) + Utf8(s[1..])
  }

  predicate IsAscii(s: string) {
    forall i :: 0 <= i < |s| ==> s[i] as int < 0x80
  }

  /** An ASCII string has as many bytes as characters; any other has more. */
  lemma {:induction false} Utf8Length(s: string)
    ensures |Utf8(s)| == |s| <==> IsAscii(s)
  {
    if s != [] {
      Utf8Length(s[1..]);
      assert forall i :: 1 <= i < |s| ==> s[i] == s[1..][i - 1];
    }
  }

  // ---------------------------------------------------------------------------
  // Substring search.
  // ---------------------------------------------------------------------------

  /** `sub` occurs in `s` starting at index `j`. */
  predicate OccursAt(s: string, sub: string, j: int) {
    0 <= j && j + |sub| <= |s| && s[j..j + |sub|] == sub
  }

  predicate Contains(s: string, sub: string) {
    exists j :: 0 <= j <= |s| - |sub| && OccursAt(s, sub, j)
  }

  function IndexFrom(s: string, sub: string, from: nat): (r: Option<nat>)
    requires from <= |s| + 1
    decreases |s| + 1 - from
    ensures r.Some? ==> from <= r.value && OccursAt(s, sub, r.value)
    ensures r.Some? ==> forall j :: from <= j < r.value ==> !OccursAt(s, sub, j)
    ensures r.None? ==> forall j :: from <= j ==> !OccursAt(s, sub, j)
  {
    if from + |sub| > |s| then None
    else if s[from..from + |sub|] == sub then Some(from)
    else IndexFrom(s, sub, from + 1)
  }

  /** `strings.Index`: the first occurrence of `sub` in `s`, None for Go's -1. */
  function Index(s: string, sub: string): (r: Option<nat>)
    ensures r.Some? ==> OccursAt(s, sub, r.value)
    ensures r.Some? ==> forall j :: 0 <= j < r.value ==> !OccursAt(s, sub, j)
    ensures r.None? <==> !Contains(s, sub)
  {
    IndexFrom(s, sub, 0)
  }

  function LastIndexBelow(s: string, sub: string, upto: nat): (r: Option<nat>)
    ensures r.Some? ==> r.value < upto && OccursAt(s, sub, r.value)
    ensures r.Some? ==> forall j :: r.value < j < upto ==> !OccursAt(s, sub, j)
    ensures r.None? ==> forall j :: 0 <= j < upto ==> !OccursAt(s, sub, j)
  {
    if upto == 0 then None
    else if OccursAt(s, sub, upto - 1) then Some(upto - 1)
    else LastIndexBelow(s, sub, upto - 1)
  }

  /** `strings.LastIndex`: the last occurrence of `sub` in `s`, None for Go's -1. */
  function LastIndex(s: string, sub: string): (r: Option<nat>)
    ensures r.Some? ==> OccursAt(s, sub, r.value)
    ensures r.Some? ==> forall j :: r.value < j ==> !OccursAt(s, sub, j)
    ensures r.None? <==> !Contains(s, sub)
  {
    LastIndexBelow(s, sub, |s| + 1)
  }

  /** `strings.HasSuffix`. */
  predicate HasSuffix(s: string, suffix: string) {
    |suffix| <= |s| && s[|s| - |suffix|..] == suffix
  }

  /** `strings.HasPrefix`. */
  predicate HasPrefix(s: string, prefix: string) {
    |prefix| <= |s| && s[..|prefix|] == prefix
  }

  /**
   * `strings.ToLower`, for ASCII letters only: Go also folds non-ASCII
   * letters, which this model leaves unchanged.
   */
  function ToLowerAscii(s: string): (r: string)
    ensures |r| == |s|
    ensures forall i :: 0 <= i < |s| && !('A' <= s[i] <= 'Z') ==> r[i] == s[i]
    ensures forall i :: 0 <= i < |s| && 'A' <= s[i] <= 'Z' ==> r[i] as int == s[i] as int + 32
  {
    if s == [] then []
    else
      var c := if 'A' <= s[0] <= 'Z' then (s[0] as int + 32) as char else s[0];
      [c] + ToLowerAscii(s[1..])
  }

  // ---------------------------------------------------------------------------
  // filepath.Base on a Unix system ('/' is the only separator, no volume names).
  // ---------------------------------------------------------------------------

  function TrimTrailingSlashes(p: string): (r: string)
    ensures |r| <= |p| && r == p[..|r|]
    ensures r == [] || r[|r| - 1] != '/'
    ensures forall i :: |r| <= i < |p| ==> p[i] == '/'
  {
    if p != [] && p[|p| - 1] == '/' then TrimTrailingSlashes(p[..|p| - 1]) else p
  }

  function AfterLastSlash(p: string): (r: string)
    ensures '/' !in r
    ensures |r| <= |p| && r == p[|p| - |r|..]
    ensures |r| < |p| ==> p[|p| - |r| - 1] == '/'
  {
    if p == [] then []
    else if p[|p| - 1] == '/' then []
    else AfterLastSlash(p[..|p| - 1]) + [p[|p| - 1]]
  }

  /** `filepath.Base`: the last element of a path; "." for "" and "/" for all-slashes. */
  function Base(p: string): (r: string)
    ensures r != []
    ensures r == "/" || '/' !in r
    ensures p == [] ==> r == "."
  {
    if p == [] then "."
    else
      var last := AfterLastSlash(TrimTrailingSlashes(p));
      if last == [] then "/" else last
  }

  // ---------------------------------------------------------------------------
  // Decimal formatting, as `%d` and `strconv.Itoa` write an integer.
  // ---------------------------------------------------------------------------

  /** The decimal digits of a natural number, without leading zeros. */
  function Digits(n: nat): (r: string)
    ensures r != [] && forall i :: 0 <= i < |r| ==> '0' <= r[i] <= '9'
    ensures |r| > 1 ==> r[0] != '0'
  {
    if n < 10 then [('0' as int + n) as char] else Digits(n / 10) + [('0' as int + n % 10) as char]
  }

  /** `%d`: a minus sign before the digits of a negative number. */
  function Itoa(n: int): (r: string)
    ensures r != []
  {
    if n < 0 then "-" + Digits(-n) else Digits(n)
  }
}
