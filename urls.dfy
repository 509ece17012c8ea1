/**
  The part of Python's `urllib.parse.urlsplit` that the client relies on: the
  scheme (lower-cased) and the network location.  Origins are rebuilt as
  `scheme://netloc`, and OriginRoundTrip shows that splitting such an origin
  gives back its two parts.
*/
module Urls {
  import opened Strings

  predicate IsSchemeChar(c: char)
  {
    IsAsciiLetter(c) || ('0' <= c <= '9') || c == '+' || c == '-' || c == '.'
  }

  /** What urlsplit accepts as a scheme: an ASCII letter, then scheme characters. */
  predicate IsScheme(s: string)
  {
    s != [] && IsAsciiLetter(s[0]) && forall i :: 0 <= i < |s| ==> IsSchemeChar(s[i])
  }

  /** The characters that end a network location. */
  predicate IsNetlocDelimiter(c: char)
  {
    c == '/' || c == '?' || c == '#'
  }

  lemma LowerKeepsScheme(s: string)
    requires IsScheme(s)
    ensures IsScheme(Lower(s)) && Lower(Lower(s)) == Lower(s)
  {
  }

  /** urlsplit's first step: the lower-cased scheme before the first ':', and the rest. */
  function SplitScheme(url: string): (r: (string, string))
    ensures r.0 == "" || (IsScheme(r.0) && Lower(r.0) == r.0)
  {
    var i := IndexOf(url, ':');
    if i > 0 && IsScheme(url[..i]) then
      LowerKeepsScheme(url[..i]);
      (Lower(url[..i]), url[i + 1..])
    else ("", url)
  }

  /** The network location at the front of `s`: everything before the first '/', '?' or '#'. */
  function NetlocPrefix(s: string): (r: string)
    ensures r <= s
    ensures forall i :: 0 <= i < |r| ==> !IsNetlocDelimiter(r[i])
    ensures |r| < |s| ==> IsNetlocDelimiter(s[|r|])
  {
    if s == [] || IsNetlocDelimiter(s[0]) then [] else [s[0]] + NetlocPrefix(s[1..])
  }

  /** `urlparse(url).scheme`. */
  function Scheme(url: string): string
  {
    SplitScheme(url).0
  }

  /** `urlparse(url).netloc`: present only when the rest of the URL starts with "//". */
  function Netloc(url: string): (r: string)
    ensures forall i :: 0 <= i < |r| ==> !IsNetlocDelimiter(r[i])
  {
    var rest := SplitScheme(url).1;
    if |rest| >= 2 && rest[..2] == "//" then NetlocPrefix(rest[2..]) else ""
  }

  /** `f"{scheme}://{netloc}"`. */
  function Origin(scheme: string, netloc: string): string
  {
    scheme + "://" + netloc
  }

  lemma {:induction false} NetlocPrefixWhole(s: string)
    requires forall i :: 0 <= i < |s| ==> !IsNetlocDelimiter(s[i])
    ensures NetlocPrefix(s) == s
  {
    if s != [] {
      NetlocPrefixWhole(s[1..]);
    }
  }

  /** Splitting `scheme://netloc` gives back the scheme and the network location. */
  lemma OriginRoundTrip(scheme: string, netloc: string)
    requires IsScheme(scheme) && Lower(scheme) == scheme
    requires forall i :: 0 <= i < |netloc| ==> !IsNetlocDelimiter(netloc[i])
    ensures Scheme(Origin(scheme, netloc)) == scheme
    ensures Netloc(Origin(scheme, netloc)) == netloc
  {
    var url := Origin(scheme, netloc);
    assert ':' !in scheme by {
      forall i | 0 <= i < |scheme| ensures scheme[i] != ':' {
        assert IsSchemeChar(scheme[i]);
      }
    }
    var i := IndexOf(url, ':');
    assert url[|scheme|] == ':';
    assert url[..i] == scheme;
    assert url[i + 1..] == "//" + netloc;
    assert ("//" + netloc)[2..] == netloc;
    NetlocPrefixWhole(netloc);
  }
}
