/**
 * The session-cookie extraction of svcloud's Login: the regular expression
 * `^` + authCookieName + `=(.*?);`, applied to one Set-Cookie header value.
 * The two dots of ".AspNet.ApplicationCookie" are not escaped, so they are
 * wildcards; a wildcard, like every `.` of the pattern, matches any character
 * except a newline. The capture is lazy: it ends at the first ';'.
 */
module CookiePattern {
  import opened Wrappers

  /** The name of the session cookie, also the literal start of the pattern. */
  const AuthCookieName: string := ".AspNet.ApplicationCookie"

  /** The fixed part of the pattern, before the capture group. */
  const Prefix: string := AuthCookieName + "="

  /** Whether pattern character `p` matches header character `c`. */
  predicate Accepts(p: char, c: char) {
    if p == '.' then c != '\n' else c == p
  }

  /** The header starts with something the fixed part of the pattern matches. */
  predicate PrefixMatches(h: string) {
    |h| >= |Prefix| && forall i :: 0 <= i < |Prefix| ==> Accepts(Prefix[i], h[i])
  }

  /** `v` is a value the pattern could capture, laziness aside: the prefix,
      then `v` (no newline in it), then a ';'. */
  ghost predicate IsCandidate(h: string, v: string) {
    && PrefixMatches(h)
    && |Prefix| + |v| < |h|
    && h[|Prefix|..|Prefix| + |v|] == v
    && h[|Prefix| + |v|] == ';'
    && '\n' !in v
  }

  /** The first index at or after `i` holding a ';' or a newline, or |h|. */
  function StopIndex(h: string, i: nat): (k: nat)
    requires i <= |h|
    ensures i <= k <= |h|
    ensures forall m :: i <= m < k ==> h[m] != ';' && h[m] != '\n'
    ensures k < |h| ==> h[k] == ';' || h[k] == '\n'
    decreases |h| - i
  {
    if i == |h| || h[i] == ';' || h[i] == '\n' then i else StopIndex(h, i + 1)
  }

  /** The stop index is the first ';' or newline from `i` on. */
  lemma StopIndexAt(h: string, i: nat, k: nat)
    requires i <= k <= |h|
    requires forall m :: i <= m < k ==> h[m] != ';' && h[m] != '\n'
    requires k < |h| ==> h[k] == ';' || h[k] == '\n'
    ensures StopIndex(h, i) == k
  {
  }

  /** The value captured by the pattern, or None when the pattern does not match. */
  function Extract(h: string): (r: Option<string>)
    ensures r.Some? ==> PrefixMatches(h) && ';' !in r.value && '\n' !in r.value
  {
    if !PrefixMatches(h) then None
    else
      var k := StopIndex(h, |Prefix|);
      if k < |h| && h[k] == ';' then Some(h[|Prefix|..k]) else None
  }

  /** What Extract finds is a value the pattern can capture, and it is the
      shortest one: every other candidate extends it. */
  lemma ExtractIsShortestCandidate(h: string, w: string)
    requires Extract(h).Some?
    ensures IsCandidate(h, Extract(h).value)
    ensures IsCandidate(h, w) ==> |Extract(h).value| <= |w| && w[..|Extract(h).value|] == Extract(h).value
  {
  }

  /** When Extract finds nothing, the pattern has no match at all. */
  lemma {:induction false} ExtractNoneHasNoCandidate(h: string, w: string)
    requires Extract(h).None?
    ensures !IsCandidate(h, w)
  {
  }

  /** The match is anchored: a header that does not start with the pattern's
      fixed part yields nothing, whatever follows. */
  lemma AnchoredAtStart(h: string, rest: string)
    requires |h| >= |Prefix| && !PrefixMatches(h)
    ensures Extract(h + rest).None?
  {
    assert forall i :: 0 <= i < |Prefix| ==> (h + rest)[i] == h[i];
  }

  /** The header the portal sends: the name, '=', a value without ';' or a
      newline, then ';' and anything. Extract yields exactly that value. */
  lemma {:induction false} ExtractCookieHeader(v: string, rest: string)
    requires ';' !in v && '\n' !in v
    ensures Extract(AuthCookieName + "=" + v + ";" + rest) == Some(v)
  {
    var h := Prefix + v + ";" + rest;
    assert AuthCookieName + "=" + v + ";" + rest == h;
    var e := |Prefix| + |v|;
    assert forall i :: 0 <= i < |Prefix| ==> h[i] == Prefix[i];
    assert forall m :: |Prefix| <= m < e ==> h[m] == v[m - |Prefix|];
    assert h[e] == ';';
    StopIndexAt(h, |Prefix|, e);
    assert h[|Prefix|..e] == v;
  }

  lemma ExampleTypicalHeader()
    ensures Extract(".AspNet.ApplicationCookie=abc123; Path=/; HttpOnly") == Some("abc123")
  {
    var h := ".AspNet.ApplicationCookie=abc123; Path=/; HttpOnly";
    assert h == Prefix + "abc123" + ";" + " Path=/; HttpOnly" by {
      assert h[..|Prefix|] == Prefix;
      assert h[|Prefix|..] == "abc123" + ";" + " Path=/; HttpOnly";
    }
    ExtractCookieHeader("abc123", " Path=/; HttpOnly");
  }

  /** Positions 0 and 7 are wildcards: other characters are accepted there. */
  lemma ExampleWildcardDots()
    ensures Extract("xAspNet-ApplicationCookie=v;") == Some("v")
  {
    var h := "xAspNet-ApplicationCookie=v;";
    assert PrefixMatches(h);
    StopIndexAt(h, |Prefix|, 27);
    assert h[|Prefix|..27] == "v";
  }

  lemma ExampleNoSemicolon()
    ensures Extract(".AspNet.ApplicationCookie=abc123").None?
  {
    var h := ".AspNet.ApplicationCookie=abc123";
    assert PrefixMatches(h);
    StopIndexAt(h, |Prefix|, |h|);
  }

  lemma ExampleEmptyValue()
    ensures Extract(".AspNet.ApplicationCookie=;") == Some("")
  {
    ExtractCookieHeader("", "");
    assert AuthCookieName + "=" + "" + ";" + "" == ".AspNet.ApplicationCookie=;";
  }

  /** The cookie must come first in the header value. */
  lemma ExampleNotAtStart()
    ensures Extract("a=1; .AspNet.ApplicationCookie=abc;").None?
  {
    var h := "a=1; .AspNet.ApplicationCookie=abc;";
    assert !Accepts(Prefix[1], h[1]);
  }

  /** A newline before the first ';' stops the capture. */
  lemma ExampleNewlineInValue()
    ensures Extract(".AspNet.ApplicationCookie=ab\ncd;").None?
  {
    var h := ".AspNet.ApplicationCookie=ab\ncd;";
    assert PrefixMatches(h);
    StopIndexAt(h, |Prefix|, 28);
  }
}
