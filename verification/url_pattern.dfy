/**
 * The CLIENT origin check of the environment loader: the regular expression
 * `^https?:\/\/[^\s/$.?#].[^\s]*$` (no flags, so case-sensitive, `.` stops at
 * line terminators and `$` anchors at the very end) written as a predicate.
 */
module UrlPattern {

  /** ECMAScript's `\s`: the WhiteSpace and LineTerminator code points. */
  predicate IsSpace(c: char) {
    || c == '\t' || c == '\n' || c == '\U{000B}' || c == '\U{000C}' || c == '\r'
    || c == ' ' || c == '\U{00A0}' || c == '\U{1680}'
    || ('\U{2000}' <= c <= '\U{200A}')
    || c == '\U{2028}' || c == '\U{2029}' || c == '\U{202F}' || c == '\U{205F}'
    || c == '\U{3000}' || c == '\U{FEFF}'
  }

  /** ECMAScript's LineTerminator: the characters `.` does not match without the `s` flag. */
  predicate IsLineTerminator(c: char) {
    c == '\n' || c == '\r' || c == '\U{2028}' || c == '\U{2029}'
  }

  /** The class `[^\s/$.?#]` that the first character after the scheme must belong to. */
  predicate IsHostStart(c: char) {
    !IsSpace(c) && c !in "/$.?#"
  }

  const Http: string := "http://"
  const Https: string := "https://"

  /** What must follow the scheme: `[^\s/$.?#]`, then `.`, then `[^\s]*` up to the end. */
  predicate TailMatches(t: string) {
    && |t| >= 2
    && IsHostStart(t[0])
    && !IsLineTerminator(t[1])
    && forall i :: 2 <= i < |t| ==> !IsSpace(t[i])
  }

  /** The whole pattern: `https?://` at the start (lower case only), then the tail. */
  predicate MatchesUrl(s: string) {
    || (Http <= s && TailMatches(s[|Http|..]))
    || (Https <= s && TailMatches(s[|Https|..]))
  }

  /** The two schemes exclude each other: the fifth character is `:` in one and `s` in the other. */
  lemma SchemesExclusive(s: string)
    ensures !(Http <= s && Https <= s)
  {
    if Http <= s {
      assert s[4] == ':';
    }
  }

  /** The tail from position `k` read as positions of `s` itself. */
  lemma TailAt(s: string, k: nat)
    requires k <= |s|
    ensures TailMatches(s[k..]) <==>
      && |s| >= k + 2
      && IsHostStart(s[k])
      && !IsLineTerminator(s[k + 1])
      && forall j :: k + 2 <= j < |s| ==> !IsSpace(s[j])
  {
  }

  /**
   * `RegExp.prototype.test` for the pattern, as a left-to-right scan: pick the
   * scheme, check the two fixed positions, then look for whitespace in the rest.
   */
  method Test(s: string) returns (b: bool)
    ensures b <==> MatchesUrl(s)
  {
    var k: nat;
    if Http <= s {
      k := |Http|;
    } else if Https <= s {
      k := |Https|;
    } else {
      return false;
    }
    SchemesExclusive(s);
    TailAt(s, k);
    if |s| < k + 2 || !IsHostStart(s[k]) || IsLineTerminator(s[k + 1]) {
      return false;
    }
    var i := k + 2;
    while i < |s|
      invariant k + 2 <= i <= |s|
      invariant forall j :: k + 2 <= j < i ==> !IsSpace(s[j])
    {
      if IsSpace(s[i]) {
        return false;
      }
      i := i + 1;
    }
    return true;
  }

  /**
   * Anything the pattern accepts starts with the lower-case `http` and is at
   * least the scheme plus two characters long.
   */
  lemma MatchShape(s: string)
    requires MatchesUrl(s)
    ensures s[..4] == "http"
    ensures |s| >= |Http| + 2
    ensures s[4] == ':' || s[4] == 's'
    ensures s[4] == 's' ==> |s| >= |Https| + 2
  {
  }

  /** Visible ASCII characters are never whitespace. */
  lemma VisibleAsciiNotSpace(c: char)
    requires '!' <= c <= '~'
    ensures !IsSpace(c) && !IsLineTerminator(c)
  {
  }

  /** Ordinary origins are accepted. */
  lemma AcceptedExamples()
    ensures MatchesUrl("http://localhost:3000")
    ensures MatchesUrl("https://app.example.com")
  {
    var local := "http://localhost:3000";
    assert local[..|Http|] == Http;
    TailAt(local, |Http|);
    forall j | |Http| <= j < |local|
      ensures !IsSpace(local[j]) && !IsLineTerminator(local[j])
    {
      VisibleAsciiNotSpace(local[j]);
    }
    var app := "https://app.example.com";
    assert app[..|Https|] == Https;
    TailAt(app, |Https|);
    forall j | |Https| <= j < |app|
      ensures !IsSpace(app[j]) && !IsLineTerminator(app[j])
    {
      VisibleAsciiNotSpace(app[j]);
    }
  }

  /** A space right after the host's first character slips through: `.` matches it. */
  lemma AcceptedSpaceExample()
    ensures MatchesUrl("http://a b")
  {
  }

  /** Too short, wrong case, wrong scheme and a forbidden first host character are rejected. */
  lemma RejectedExamples()
    ensures !MatchesUrl("http://a")
    ensures !MatchesUrl("HTTP://example.com")
    ensures !MatchesUrl("ftp://example.com")
    ensures !MatchesUrl("http://.example.com")
    ensures !MatchesUrl("")
  {
    var short := "http://a";
    SchemesExclusive(short);
    TailAt(short, |Http|);
    var upper := "HTTP://example.com";
    assert upper[0] != Http[0] && upper[0] != Https[0];
    var ftp := "ftp://example.com";
    assert ftp[0] != Http[0] && ftp[0] != Https[0];
    var dot := "http://.example.com";
    SchemesExclusive(dot);
    TailAt(dot, |Http|);
  }

  /** A line break as the second host character, or whitespace after it, is rejected. */
  lemma RejectedWhitespaceExamples()
    ensures !MatchesUrl("http://a\nb")
    ensures !MatchesUrl("http://ab c")
  {
    var broken := "http://a\nb";
    SchemesExclusive(broken);
    TailAt(broken, |Http|);
    var spaced := "http://ab c";
    SchemesExclusive(spaced);
    TailAt(spaced, |Http|);
    assert IsSpace(spaced[9]);
  }
}
