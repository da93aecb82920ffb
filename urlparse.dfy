/**
 * The part of Python's `urllib.parse.urlsplit` that decides whether a URL
 * has a scheme and a network location (the scheme and authority components
 * of section 3 of RFC 3986): the scheme is what precedes the first ':' when
 * that prefix starts with an ASCII letter and holds only scheme characters;
 * the network location is what follows a leading "//" of the remainder, up
 * to the first '/', '?' or '#'.
 */
module UrlParse {

  /** Python's `s.find(c, from)`: the first index at or after `from` holding `c`, or -1. */
  function Find(s: string, c: char, from: nat): (i: int)
    decreases |s| - from
    ensures i == -1 || (from <= i < |s| && s[i] == c)
    ensures i == -1 ==> forall k :: from <= k < |s| ==> s[k] != c
    ensures i != -1 ==> forall k :: from <= k < i ==> s[k] != c
  {
    if from >= |s| then -1
    else if s[from] == c then from
    else Find(s, c, from + 1)
  }

  predicate IsAsciiLetter(c: char)
  {
    'a' <= c <= 'z' || 'A' <= c <= 'Z'
  }

  /** Letters, digits, '+', '-' and '.', the characters a scheme may hold. */
  predicate IsSchemeChar(c: char)
  {
    IsAsciiLetter(c) || '0' <= c <= '9' || c == '+' || c == '-' || c == '.'
  }

  /** The scheme of `url` and what follows its ':'; no scheme leaves `url` whole. */
  function SplitScheme(url: string): (parts: (string, string))
    ensures parts.0 != "" ==>
              && url == parts.0 + ":" + parts.1 && IsAsciiLetter(parts.0[0])
              && forall k :: 0 <= k < |parts.0| ==> IsSchemeChar(parts.0[k]) && parts.0[k] != ':'
    ensures parts.0 == "" ==> parts.1 == url
    ensures forall i :: (0 < i < |url| && url[i] == ':' && IsAsciiLetter(url[0]) &&
                         (forall k :: 0 <= k < i ==> IsSchemeChar(url[k]) && url[k] != ':')) ==> parts.0 == url[..i]
    ensures (forall k :: 0 <= k < |url| ==> url[k] != ':') ==> parts.0 == ""
  {
    var i := Find(url, ':', 0);
    if i > 0 && IsAsciiLetter(url[0]) && forall k :: 0 <= k < i ==> IsSchemeChar(url[k])
    then (url[..i], url[i + 1..])
    else ("", url)
  }

  /** `d` narrowed to `w` when `w` is a found index before it (one step of `_splitnetloc`). */
  function Narrow(d: nat, w: int): nat
  {
    if 0 <= w < d then w else d
  }

  /** Where the network location that starts at `start` ends: the first '/', '?' or '#', or the end. */
  function NetlocEnd(s: string, start: nat): (e: nat)
    requires start <= |s|
    ensures start <= e <= |s|
    ensures e < |s| ==> s[e] == '/' || s[e] == '?' || s[e] == '#'
    ensures forall k :: start <= k < e ==> s[k] != '/' && s[k] != '?' && s[k] != '#'
  {
    Narrow(Narrow(Narrow(|s|, Find(s, '/', start)), Find(s, '?', start)), Find(s, '#', start))
  }

  /** The network location of a scheme-less remainder: empty unless it starts with "//". */
  function Netloc(rest: string): (netloc: string)
    ensures netloc != "" ==> |rest| > 2 && rest[..2] == "//" && 2 + |netloc| <= |rest| && netloc == rest[2..2 + |netloc|]
    ensures forall k :: 0 <= k < |netloc| ==> !IsNetlocDelimiter(netloc[k])
    ensures |rest| >= 2 && rest[..2] == "//" && 2 + |netloc| < |rest| ==> IsNetlocDelimiter(rest[2 + |netloc|])
  {
    if |rest| >= 2 && rest[..2] == "//" then rest[2..NetlocEnd(rest, 2)] else ""
  }

  /** `urlparse(url).scheme and urlparse(url).netloc` are both non-empty. */
  predicate HasSchemeAndNetloc(url: string)
    ensures HasSchemeAndNetloc(url) ==> 0 < Find(url, ':', 0) && IsAsciiLetter(url[0])
  {
    var (scheme, rest) := SplitScheme(url);
    scheme != "" && Netloc(rest) != ""
  }

  predicate IsNetlocDelimiter(c: char)
  {
    c == '/' || c == '?' || c == '#'
  }

  /** The network location is non-empty exactly when "//" is followed by a non-delimiter. */
  lemma NetlocNonEmpty(rest: string)
    ensures Netloc(rest) != "" <==> |rest| > 2 && rest[0] == '/' && rest[1] == '/' && !IsNetlocDelimiter(rest[2])
  {
    if |rest| >= 2 && rest[..2] == "//" {
      var e := NetlocEnd(rest, 2);
      if |rest| > 2 && !IsNetlocDelimiter(rest[2]) {
        assert e > 2;
      }
    }
  }

  /** Appending to `s` does not move a ':' already found in it. */
  lemma {:induction false} FindInPrefix(s: string, t: string, c: char, from: nat)
    requires Find(s, c, from) != -1
    ensures Find(s + t, c, from) == Find(s, c, from)
    decreases |s| - from
  {
    if s[from] != c {
      FindInPrefix(s, t, c, from + 1);
    }
  }

  /** A URL with a scheme and a network location keeps both whatever is appended to it. */
  lemma AbsoluteExtends(base: string, path: string)
    requires HasSchemeAndNetloc(base)
    ensures HasSchemeAndNetloc(base + path)
  {
    var i := Find(base, ':', 0);
    FindInPrefix(base, path, ':', 0);
    var u := base + path;
    assert u[..i] == base[..i];
    assert u[i + 1..] == base[i + 1..] + path;
    var rest := base[i + 1..];
    NetlocNonEmpty(rest);
    NetlocNonEmpty(rest + path);
  }

  /** A URL written `scheme ":" "//" host ...` has a scheme and a network location. */
  lemma SchemeAndHost(scheme: string, after: string)
    requires |scheme| > 0 && IsAsciiLetter(scheme[0])
    requires forall k :: 0 <= k < |scheme| ==> IsSchemeChar(scheme[k]) && scheme[k] != ':'
    requires |after| > 2 && after[0] == '/' && after[1] == '/' && !IsNetlocDelimiter(after[2])
    ensures HasSchemeAndNetloc(scheme + ":" + after)
  {
    var u := scheme + ":" + after;
    var prefix := scheme + ":";
    assert prefix[|scheme|] == ':';
    assert forall k :: 0 <= k < |scheme| ==> prefix[k] == scheme[k];
    assert Find(prefix, ':', 0) == |scheme|;
    FindInPrefix(scheme + ":", after, ':', 0);
    assert u[..|scheme|] == scheme;
    assert u[|scheme| + 1..] == after;
    NetlocNonEmpty(after);
  }

  /** A string without ':' has no scheme, so no scheme and network location. */
  lemma NoColonIsRelative(url: string)
    requires forall k :: 0 <= k < |url| ==> url[k] != ':'
    ensures !HasSchemeAndNetloc(url)
  {
  }
}
