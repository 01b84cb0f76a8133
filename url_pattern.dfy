/** The URL test of `get_relevant_web_pages`: Python's `re.match` of

      ^(?:http(s)?:\/\/)?[\w.-]+(?:\.[\w\.-]+)+[\w\-\._~:/?#[\]@!$&'()*+,;=.]+$

    with IGNORECASE. Two readings are given: `InLanguage`, which follows the
    pattern's structure (an optional scheme, a host run, one or more dot-groups,
    a tail run, and the end of input or one final newline, which is where `$`
    matches in Python), and `Matches`, a left-to-right scan in the order the
    regex engine commits to its choices. `MatchesIsLanguage` proves them equal. */
module UrlPattern {

  /** `\w`, limited to ASCII letters, digits and the underscore. */
  predicate IsWordChar(c: char) {
    'a' <= c <= 'z' || 'A' <= c <= 'Z' || '0' <= c <= '9' || c == '_'
  }

  /** The class `[\w.-]` (used twice: before and inside the dot-groups). */
  predicate IsHostChar(c: char) {
    IsWordChar(c) || c == '.' || c == '-'
  }

  /** The final class `[\w\-\._~:/?#[\]@!$&'()*+,;=.]`. */
  predicate IsTailChar(c: char) {
    IsWordChar(c) || c == '-' || c == '.' || c == '_' || c == '~' || c == ':' || c == '/'
    || c == '?' || c == '#' || c == '[' || c == ']' || c == '@' || c == '!' || c == '$'
    || c == '&' || c == '\'' || c == '(' || c == ')' || c == '*' || c == '+' || c == ','
    || c == ';' || c == '='
  }

  predicate AllHost(s: string) {
    forall i :: 0 <= i < |s| ==> IsHostChar(s[i])
  }

  predicate AllTail(s: string) {
    forall i :: 0 <= i < |s| ==> IsTailChar(s[i])
  }

  /** Case-insensitive comparison of an input character with a pattern character.
      Under IGNORECASE a lower-case pattern letter also matches its upper-case form,
      and `s` also matches U+017F LATIN SMALL LETTER LONG S. */
  predicate PatternChar(c: char, p: char) {
    if 'a' <= p <= 'z' then
      c == p || c as int == p as int - 32 || (p == 's' && c == '\U{017F}')
    else c == p
  }

  /** `p` spells the literal `word` under IGNORECASE. */
  predicate Spells(p: string, word: string) {
    |p| == |word| && forall i :: 0 <= i < |p| ==> PatternChar(p[i], word[i])
  }

  const Http: string := "http://"
  const Https: string := "https://"

  // ---------------------------------------------------------------------------
  // The pattern, read structurally

  /** `(?:\.[\w\.-]+)+`: one or more groups, each a dot and a non-empty host run. */
  predicate DotGroups(d: string)
    decreases |d|
  {
    |d| >= 2 && d[0] == '.' &&
    exists k :: 2 <= k <= |d| && AllHost(d[1..k]) && (k == |d| || DotGroups(d[k..]))
  }

  /** `[\w.-]+(?:\.[\w\.-]+)+[...]+`: a host run, the dot-groups, a tail run. */
  predicate Body(b: string) {
    exists i, j :: 0 < i < j < |b| && AllHost(b[..i]) && DotGroups(b[i..j]) && AllTail(b[j..])
  }

  /** `(?:http(s)?:\/\/)?`. */
  predicate Scheme(p: string) {
    p == [] || Spells(p, Http) || Spells(p, Https)
  }

  /** Where Python's `$` may match: the end of the string, or before a final newline. */
  predicate Ending(t: string) {
    t == [] || t == "\n"
  }

  /** `re.match` succeeds: some split of `s` into scheme, body and ending. */
  predicate InLanguage(s: string) {
    exists k, e :: 0 <= k <= e <= |s| && Scheme(s[..k]) && Body(s[k..e]) && Ending(s[e..])
  }

  // ---------------------------------------------------------------------------
  // The pattern, as a scan

  /** Length of the longest prefix of `b` made of host characters. */
  function HostRun(b: string): (n: nat)
    ensures n <= |b|
    ensures AllHost(b[..n])
    ensures n < |b| ==> !IsHostChar(b[n])
  {
    if b == [] || !IsHostChar(b[0]) then 0
    else
      var n := 1 + HostRun(b[1..]);
      assert forall i :: 1 <= i < n ==> b[..n][i] == b[1..][..n - 1][i - 1];
      n
  }

  /** Whether `b` has a dot at some position in `[lo, hi)`. */
  function HasDot(b: string, lo: nat, hi: nat): (r: bool)
    requires hi <= |b|
    ensures r <==> exists p :: lo <= p < hi && b[p] == '.'
    decreases hi - lo
  {
    if lo >= hi then false
    else b[lo] == '.' || HasDot(b, lo + 1, hi)
  }

  /** The body matches when every character is a tail character and the longest
      host prefix (leaving at least one character for the tail) has a dot with a
      host character on each side. */
  function BodyMatches(b: string): bool {
    var m := if HostRun(b) < |b| then HostRun(b) else |b| - 1;
    AllTail(b) && m >= 3 && HasDot(b, 1, m - 1)
  }

  /** The input with the one final newline that `$` may skip removed. */
  function Core(s: string): (c: string)
    ensures c <= s && |s| - 1 <= |c|
    ensures |c| < |s| <==> |s| > 0 && s[|s| - 1] == '\n'
  {
    if |s| > 0 && s[|s| - 1] == '\n' then s[..|s| - 1] else s
  }

  /** `bool(url_pattern.match(s))` (web_search.py lines 79-84). */
  function Matches(s: string): bool {
    var c := Core(s);
    if |c| >= 8 && Spells(c[..8], Https) then BodyMatches(c[8..])
    else if |c| >= 7 && Spells(c[..7], Http) then BodyMatches(c[7..])
    else BodyMatches(c)
  }

  // ---------------------------------------------------------------------------
  // The two readings agree

  /** Several dot-groups are the same as one: a dot then a host run. */
  lemma {:induction false} DotGroupsIsDotHost(d: string)
    ensures DotGroups(d) <==> |d| >= 2 && d[0] == '.' && AllHost(d[1..])
    decreases |d|
  {
    if DotGroups(d) {
      var k :| 2 <= k <= |d| && AllHost(d[1..k]) && (k == |d| || DotGroups(d[k..]));
      if k < |d| {
        DotGroupsIsDotHost(d[k..]);
        assert d[k] == '.';
        forall i | 1 <= i < |d| ensures IsHostChar(d[i]) {
          if i < k { assert d[1..k][i - 1] == d[i]; }
          else if i > k { assert d[k..][1..][i - k - 1] == d[i]; }
        }
      }
    }
    if |d| >= 2 && d[0] == '.' && AllHost(d[1..]) {
      assert d[1..|d|] == d[1..];
    }
  }

  lemma HostSlice(s: string, lo: nat, hi: nat)
    requires AllHost(s) && lo <= hi <= |s|
    ensures AllHost(s[lo..hi])
  {
    assert forall q :: 0 <= q < hi - lo ==> s[lo..hi][q] == s[lo + q];
  }

  lemma TailSlice(s: string, lo: nat, hi: nat)
    requires AllTail(s) && lo <= hi <= |s|
    ensures AllTail(s[lo..hi])
  {
    assert forall q :: 0 <= q < hi - lo ==> s[lo..hi][q] == s[lo + q];
  }

  lemma HostRunCovers(b: string, j: nat)
    requires j <= |b| && AllHost(b[..j])
    ensures j <= HostRun(b)
  {
    assert forall q :: 0 <= q < j ==> b[..j][q] == b[q];
  }

  /** Two host runs around a dot, then a tail run, make a body. */
  lemma BodyFromSplit(b: string, p: nat, m: nat)
    requires 0 < p && p + 2 <= m < |b|
    requires AllHost(b[..m]) && b[p] == '.' && AllTail(b[m..])
    ensures Body(b)
  {
    HostSlice(b[..m], 0, p);
    assert b[..m][0..p] == b[..p];
    HostSlice(b[..m], p + 1, m);
    assert b[..m][p + 1..m] == b[p..m][1..];
    DotGroupsIsDotHost(b[p..m]);
  }

  /** A body is made of host characters up to the end of its dot-groups, and of
      tail characters throughout. */
  lemma SplitOfBody(b: string, i: nat, j: nat)
    requires 0 < i < j < |b| && AllHost(b[..i]) && DotGroups(b[i..j]) && AllTail(b[j..])
    ensures AllHost(b[..j]) && AllTail(b) && b[i] == '.'
  {
    DotGroupsIsDotHost(b[i..j]);
    forall q | 0 <= q < j ensures IsHostChar(b[..j][q]) {
      if q < i { assert b[..i][q] == b[q]; }
      else if q > i { assert b[i..j][1..][q - i - 1] == b[q]; }
    }
    forall q | 0 <= q < |b| ensures IsTailChar(b[q]) {
      if q < j { assert b[..j][q] == b[q]; } else { assert b[j..][q - j] == b[q]; }
    }
  }

  /** The scan and the structural reading of the body agree. */
  lemma BodyMatchesIsBody(b: string)
    ensures BodyMatches(b) <==> Body(b)
  {
    var r := HostRun(b);
    var m := if r < |b| then r else |b| - 1;
    if BodyMatches(b) {
      var p :| 1 <= p < m - 1 && b[p] == '.';
      HostSlice(b[..r], 0, m);
      assert b[..r][0..m] == b[..m];
      TailSlice(b, m, |b|);
      assert b[m..|b|] == b[m..];
      BodyFromSplit(b, p, m);
    }
    if Body(b) {
      var i, j :| 0 < i < j < |b| && AllHost(b[..i]) && DotGroups(b[i..j]) && AllTail(b[j..]);
      SplitOfBody(b, i, j);
      HostRunCovers(b, j);
      assert HasDot(b, 1, m - 1);
    }
  }

  /** A body is made of tail characters (so it holds no newline) and has at least
      three of them. */
  lemma BodyIsTail(b: string)
    requires Body(b)
    ensures AllTail(b) && |b| >= 3
  {
    var i, j :| 0 < i < j < |b| && AllHost(b[..i]) && DotGroups(b[i..j]) && AllTail(b[j..]);
    SplitOfBody(b, i, j);
  }

  /** The scheme-free reading fails on an input that begins with a scheme: the
      longest host prefix is `http` or `https`, which holds no dot. */
  lemma NoBodyAfterSchemeLetters(c: string, n: nat)
    requires (n == 7 && |c| >= 7 && Spells(c[..7], Http)) || (n == 8 && |c| >= 8 && Spells(c[..8], Https))
    ensures !BodyMatches(c)
  {
    assert c[n - 3] == ':';
    var r := HostRun(c);
    assert forall q :: 0 <= q < r ==> c[..r][q] == c[q];
    assert r <= n - 3;
    forall p | 1 <= p < n - 3 ensures c[p] != '.' {
      assert PatternChar(c[p], (if n == 7 then Http else Https)[p]);
    }
  }

  /** No input spells both schemes: the fifth character is `:` in one and `s` in the other. */
  lemma SchemesDiffer(c: string)
    requires |c| >= 8 && Spells(c[..7], Http)
    ensures !Spells(c[..8], Https)
  {
    assert c[..7][4] == ':';
    assert c[..8][4] == c[4];
  }

  /** Matching the scan on the input without its final newline. */
  predicate CoreLanguage(c: string) {
    exists k :: 0 <= k <= |c| && Scheme(c[..k]) && Body(c[k..])
  }

  lemma CoreLanguageByScheme(c: string)
    ensures CoreLanguage(c) <==>
      (if |c| >= 8 && Spells(c[..8], Https) then BodyMatches(c[8..])
       else if |c| >= 7 && Spells(c[..7], Http) then BodyMatches(c[7..])
       else BodyMatches(c))
  {
    assert c[..0] == [] && c[0..] == c;
    if CoreLanguage(c) {
      var k :| 0 <= k <= |c| && Scheme(c[..k]) && Body(c[k..]);
      BodyMatchesIsBody(c[k..]);
      if k == 0 {
        if |c| >= 8 && Spells(c[..8], Https) {
          NoBodyAfterSchemeLetters(c, 8);
        } else if |c| >= 7 && Spells(c[..7], Http) {
          NoBodyAfterSchemeLetters(c, 7);
        }
      } else if k == 7 {
        assert Spells(c[..7], Http);
        if |c| >= 8 {
          SchemesDiffer(c);
        }
      } else {
        assert k == 8 && Spells(c[..8], Https);
      }
    } else {
      if |c| >= 8 && Spells(c[..8], Https) {
        BodyMatchesIsBody(c[8..]);
        assert !(Scheme(c[..8]) && Body(c[8..]));
      } else if |c| >= 7 && Spells(c[..7], Http) {
        BodyMatchesIsBody(c[7..]);
        assert !(Scheme(c[..7]) && Body(c[7..]));
      } else {
        BodyMatchesIsBody(c);
        assert !(Scheme(c[..0]) && Body(c[0..]));
      }
    }
  }

  lemma SlicesOfPrefix(s: string, n: nat, k: nat)
    requires k <= n <= |s|
    ensures s[..n][..k] == s[..k] && s[..n][k..] == s[k..n]
  {
  }

  /** The ending is determined by the input: a match is a match of its core. */
  lemma InLanguageIsCore(s: string)
    ensures InLanguage(s) <==> CoreLanguage(Core(s))
  {
    var c := Core(s);
    assert c == s[..|c|];
    if InLanguage(s) {
      var k, e :| 0 <= k <= e <= |s| && Scheme(s[..k]) && Body(s[k..e]) && Ending(s[e..]);
      BodyIsTail(s[k..e]);
      if e == |s| {
        assert s[k..e][e - k - 1] == s[|s| - 1];
      } else {
        assert s[e..][0] == s[e];
      }
      assert |c| == e;
      SlicesOfPrefix(s, e, k);
    }
    if CoreLanguage(c) {
      var k :| 0 <= k <= |c| && Scheme(c[..k]) && Body(c[k..]);
      SlicesOfPrefix(s, |c|, k);
      assert Ending(s[|c|..]);
    }
  }

  /** The scan decides exactly the language of the pattern. */
  lemma MatchesIsLanguage(s: string)
    ensures Matches(s) <==> InLanguage(s)
  {
    CoreLanguageByScheme(Core(s));
    InLanguageIsCore(s);
  }

  // ---------------------------------------------------------------------------
  // What a match guarantees

  /** The characters for which Python's `str.isspace` holds. */
  predicate IsSpace(c: char) {
    '\t' <= c <= '\r' || '\U{1C}' <= c <= ' ' || c == '\U{85}' || c == '\U{A0}'
    || c == '\U{1680}' || '\U{2000}' <= c <= '\U{200A}' || c == '\U{2028}' || c == '\U{2029}'
    || c == '\U{202F}' || c == '\U{205F}' || c == '\U{3000}'
  }

  lemma TailIsNotSpace(c: char)
    requires IsTailChar(c)
    ensures !IsSpace(c)
  {
  }

  lemma SchemeIsNotSpace(c: char, p: char)
    requires PatternChar(c, p) && !IsSpace(p) && (p == 's' || !('a' <= p <= 'z') || 'h' <= p <= 't')
    ensures !IsSpace(c)
  {
  }

  /** A matching string has no whitespace before its optional final newline, a dot
      that is followed by at least one more character, and at least four characters. */
  lemma MatchShape(s: string)
    requires Matches(s)
    ensures forall q :: 0 <= q < |Core(s)| ==> !IsSpace(Core(s)[q])
    ensures exists q :: 0 <= q < |s| - 1 && s[q] == '.'
    ensures |s| >= 4
  {
    var c := Core(s);
    var n := if |c| >= 8 && Spells(c[..8], Https) then 8
             else if |c| >= 7 && Spells(c[..7], Http) then 7
             else 0;
    var b := c[n..];
    assert BodyMatches(b);
    var m := if HostRun(b) < |b| then HostRun(b) else |b| - 1;
    var p :| 1 <= p < m - 1 && b[p] == '.';
    assert s[n + p] == '.';
    forall q | 0 <= q < |c| ensures !IsSpace(c[q]) {
      if q >= n {
        assert b[q - n] == c[q];
        TailIsNotSpace(c[q]);
      } else {
        var w := if n == 7 then Http else Https;
        assert PatternChar(c[..n][q], w[q]);
        SchemeIsNotSpace(c[q], w[q]);
      }
    }
  }
}
