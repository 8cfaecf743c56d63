/**
 * Redirect allow-list patterns: a glob in which '*' matches any run of
 * characters (possibly empty) and every other character matches itself.
 * This approximates `wildcard.Match`, whose other metacharacters are not
 * modelled.
 */
module Wildcard {
  import opened Text

  /**
   * Whether `s` matches `pattern`. The empty pattern matches only the empty
   * string, and a match of a pattern that starts with a literal begins with
   * that literal.
   */
  function Match(pattern: string, s: string): (r: bool)
    ensures pattern == [] ==> (r <==> s == [])
    ensures r && pattern != [] && pattern[0] != '*' ==> s != [] && s[0] == pattern[0]
    ensures r && s == [] ==> forall i :: 0 <= i < |pattern| ==> pattern[i] == '*'
    decreases |pattern| + |s|
  {
    if pattern == [] then s == []
    else if pattern[0] == '*' then Match(pattern[1..], s) || (s != [] && Match(pattern, s[1..]))
    else s != [] && s[0] == pattern[0] && Match(pattern[1..], s[1..])
  }

  /** A pattern without '*' matches exactly itself. */
  lemma {:induction false} LiteralMatch(pattern: string, s: string)
    requires '*' !in pattern
    ensures Match(pattern, s) <==> s == pattern
  {
    if pattern != [] && s != [] {
      assert '*' !in pattern[1..];
      LiteralMatch(pattern[1..], s[1..]);
      if s == pattern {
        assert s[1..] == pattern[1..];
      } else if s[0] == pattern[0] {
        assert s == [s[0]] + s[1..] && pattern == [pattern[0]] + pattern[1..];
      }
    }
  }

  /** A lone '*' matches everything. */
  lemma {:induction false} StarMatchesAll(s: string)
    ensures Match("*", s)
  {
    if s != [] {
      StarMatchesAll(s[1..]);
    }
  }

  /** `prefix*`, for a prefix without '*', matches exactly the strings that start with the prefix. */
  lemma {:induction false} PrefixStar(prefix: string, s: string)
    requires '*' !in prefix
    ensures Match(prefix + "*", s) <==> HasPrefix(s, prefix)
  {
    if prefix == [] {
      assert prefix + "*" == "*";
      StarMatchesAll(s);
    } else {
      assert (prefix + "*")[0] == prefix[0] && (prefix + "*")[1..] == prefix[1..] + "*";
      assert '*' !in prefix[1..];
      if s != [] {
        PrefixStar(prefix[1..], s[1..]);
        if s[0] == prefix[0] {
          if HasPrefix(s[1..], prefix[1..]) {
            assert s[..|prefix|] == [s[0]] + s[1..][..|prefix| - 1];
            assert prefix == [prefix[0]] + prefix[1..];
          }
          if HasPrefix(s, prefix) {
            assert s[1..][..|prefix| - 1] == s[..|prefix|][1..];
          }
        } else if |prefix| <= |s| {
          assert s[..|prefix|][0] != prefix[0];
        }
      }
    }
  }
}
