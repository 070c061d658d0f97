/**
 * The part of Go's `net/url.Parse` that the deprecated siteverify option
 * relies on: the scheme (lower-cased) and the host of a URL, or the reason
 * the URL is refused. Percent-decoding, user-info validation and IPv6 zones
 * are not modelled.
 */
module Urls {
  import opened Wrappers

  /** The two parts of a parsed URL that the client reads. */
  datatype URL = URL(scheme: string, host: string)

  datatype URLError =
    | InvalidControlCharacter
    | MissingProtocolScheme
    | ColonInFirstPathSegment
    | MissingBracketInHost
    | InvalidPort
    | InvalidHost

  predicate IsControl(c: char)
  {
    (c as int) < 0x20 || (c as int) == 0x7f
  }

  predicate IsLetter(c: char)
  {
    ('a' <= c <= 'z') || ('A' <= c <= 'Z')
  }

  predicate IsDigit(c: char)
  {
    '0' <= c <= '9'
  }

  predicate IsSchemeChar(c: char)
  {
    IsLetter(c) || IsDigit(c) || c == '+' || c == '-' || c == '.'
  }

  predicate HasControl(s: string)
  {
    exists j :: 0 <= j < |s| && IsControl(s[j])
  }

  predicate StartsWith(s: string, prefix: string)
  {
    |prefix| <= |s| && s[..|prefix|] == prefix
  }

  /** The index of the first `c` in `s`, or `|s|` when there is none. */
  function IndexOf(s: string, c: char): (i: nat)
    ensures i <= |s|
    ensures i < |s| ==> s[i] == c
    ensures forall j :: 0 <= j < i ==> s[j] != c
  {
    if s == [] then 0
    else if s[0] == c then 0
    else 1 + IndexOf(s[1..], c)
  }

  /** The index of the last `c` in `s`, or -1 when there is none. */
  function LastIndexOf(s: string, c: char): (i: int)
    ensures -1 <= i < |s|
    ensures 0 <= i ==> s[i] == c
    ensures forall j :: i < j < |s| ==> s[j] != c
  {
    if s == [] then -1
    else if s[|s| - 1] == c then |s| - 1
    else LastIndexOf(s[..|s| - 1], c)
  }

  /** The part of `s` before the first `c` (all of `s` when there is none), as `strings.Cut` returns it. */
  function Before(s: string, c: char): string
  {
    s[..IndexOf(s, c)]
  }

  /** The length of the longest prefix of `s` made of scheme characters. */
  function SchemeLength(s: string): (n: nat)
    ensures n <= |s|
    ensures forall j :: 0 <= j < n ==> IsSchemeChar(s[j])
    ensures n < |s| ==> !IsSchemeChar(s[n])
  {
    if s == [] || !IsSchemeChar(s[0]) then 0 else 1 + SchemeLength(s[1..])
  }

  /**
   * Splits off a scheme: a letter followed by scheme characters and a colon.
   * A leading colon is an error; anything else yields no scheme and the whole input.
   */
  function GetScheme(raw: string): Result<(string, string), URLError>
  {
    if raw == [] then Success(("", raw))
    else if raw[0] == ':' then Failure(MissingProtocolScheme)
    else if !IsLetter(raw[0]) then Success(("", raw))
    else
      var n := SchemeLength(raw);
      if n < |raw| && raw[n] == ':' then Success((raw[..n], raw[n + 1..]))
      else Success(("", raw))
  }

  function ToLower(s: string): (r: string)
  {
    seq(|s|, i requires 0 <= i < |s| => if 'A' <= s[i] <= 'Z' then (s[i] as int + 32) as char else s[i])
  }

  /** Empty, or a colon followed by digits only. */
  predicate ValidOptionalPort(port: string)
  {
    port == [] || (port[0] == ':' && forall j :: 1 <= j < |port| ==> IsDigit(port[j]))
  }

  /** A character the host check lets through: brackets, and `%`, whose escapes are not modelled, included. */
  predicate AcceptedInHost(c: char)
  {
    IsHostChar(c) || c == '[' || c == ']' || c == '%'
  }

  /** Some character of `host` must be escaped in a host name (a space, `{`, `|`, a backtick, ...). */
  predicate HasRefusedHostChar(host: string)
  {
    exists j :: 0 <= j < |host| && !AcceptedInHost(host[j])
  }

  /** The character check Go's host unescaping applies after the port check. */
  function CheckHostChars(host: string): (r: Result<string, URLError>)
    ensures r.Success? <==> !HasRefusedHostChar(host)
    ensures r.Success? ==> r.value == host
  {
    if HasRefusedHostChar(host) then Failure(InvalidHost) else Success(host)
  }

  /** A host, bracketed or not, with its optional port; it is refused for a bad port or a character that needs escaping. */
  function ParseHost(host: string): (r: Result<string, URLError>)
    ensures r.Success? ==> r.value == host && !HasRefusedHostChar(host)
  {
    if host != [] && host[0] == '[' then
      var i := LastIndexOf(host, ']');
      if i < 0 then Failure(MissingBracketInHost)
      else if !ValidOptionalPort(host[i + 1..]) then Failure(InvalidPort)
      else CheckHostChars(host)
    else
      var i := LastIndexOf(host, ':');
      if 0 <= i && !ValidOptionalPort(host[i..]) then Failure(InvalidPort)
      else CheckHostChars(host)
  }

  /** A host with a space is refused, whatever follows. */
  lemma ParseHostRefusesSpace(a: string, b: string)
    requires ':' !in a && ':' !in b && (a == [] || a[0] != '[')
    ensures ParseHost(a + " " + b) == Failure(InvalidHost)
  {
    var h := a + " " + b;
    assert h[|a|] == ' ' && !AcceptedInHost(h[|a|]);
    assert h[0] != '[' by {
      if a == [] {
        assert h[0] == ' ';
      } else {
        assert h[0] == a[0];
      }
    }
    assert forall j :: 0 <= j < |h| ==> h[j] != ':' by {
      forall j | 0 <= j < |h| ensures h[j] != ':' {
        if j < |a| {
          assert h[j] == a[j];
        } else if j > |a| {
          assert h[j] == b[j - |a| - 1];
        }
      }
    }
    LastIndexOfAbsent(h, ':');
  }

  /** The host of an authority: whatever follows its last `@`. */
  function ParseAuthority(authority: string): Result<string, URLError>
  {
    var at := LastIndexOf(authority, '@');
    if at < 0 then ParseHost(authority) else ParseHost(authority[at + 1..])
  }

  /** `url.Parse`: the fragment is cut off first. */
  function Parse(raw: string): Result<URL, URLError>
  {
    ParseReference(Before(raw, '#'))
  }

  function ParseReference(u: string): Result<URL, URLError>
  {
    if HasControl(u) then Failure(InvalidControlCharacter)
    else if u == "*" then Success(URL("", ""))
    else
      match GetScheme(u)
      case Failure(e) => Failure(e)
      case Success((scheme, rest)) => ParseAfterScheme(ToLower(scheme), Before(rest, '?'))
  }

  /** What follows the scheme, with the query cut off: an opaque part, or a `//` authority and a path. */
  function ParseAfterScheme(scheme: string, rest: string): Result<URL, URLError>
  {
    if !StartsWith(rest, "/") && scheme != "" then
      Success(URL(scheme, ""))
    else if !StartsWith(rest, "/") && ':' in Before(rest, '/') then
      Failure(ColonInFirstPathSegment)
    else if (scheme != "" || !StartsWith(rest, "///")) && StartsWith(rest, "//") then
      match ParseAuthority(Before(rest[2..], '/'))
      case Failure(e) => Failure(e)
      case Success(host) => Success(URL(scheme, host))
    else
      Success(URL(scheme, ""))
  }

  /** A non-empty scheme: a letter, then scheme characters. */
  predicate IsScheme(s: string)
  {
    s != [] && IsLetter(s[0]) && forall j :: 0 <= j < |s| ==> IsSchemeChar(s[j])
  }

  /**
   * A character Go accepts unescaped in a host name (brackets aside): a
   * letter, a digit, one of `-_.~!$&'()*+,;=:<>"`, or any non-ASCII character.
   */
  predicate IsHostChar(c: char)
  {
    IsLetter(c) || IsDigit(c) || (c as int) >= 0x80
    || c == '-' || c == '_' || c == '.' || c == '~' || c == '!' || c == '$' || c == '&' || c == '\''
    || c == '(' || c == ')' || c == '*' || c == '+' || c == ',' || c == ';' || c == '=' || c == ':'
    || c == '<' || c == '>' || c == '"'
  }

  /** A host name with an optional numeric port, with no character that ends or splits an authority. */
  predicate IsPlainHost(h: string)
  {
    HostChars(h) && PortOK(h)
  }

  predicate HostChars(h: string)
  {
    forall j :: 0 <= j < |h| ==> IsHostChar(h[j])
  }

  /** The part after the last colon, if any, is a valid port. */
  predicate PortOK(h: string)
  {
    var i := LastIndexOf(h, ':');
    i < 0 || ValidOptionalPort(h[i..])
  }

  /** No host character ends or splits an authority, and none is a control character. */
  lemma HostCharsHaveNoDelimiters(h: string)
    requires HostChars(h)
    ensures '/' !in h && '?' !in h && '#' !in h && '@' !in h
    ensures !HasControl(h) && (h == [] || h[0] != '[')
  {
    assert forall j :: 0 <= j < |h| ==> IsHostChar(h[j]);
  }

  /** A path that is empty or absolute, with no control character and no percent escape. */
  predicate IsPlainPath(p: string)
  {
    (p == [] || p[0] == '/') && !HasControl(p) && '%' !in p
  }

  lemma {:induction false} IndexOfAppend(a: string, b: string, c: char)
    requires c !in a
    ensures IndexOf(a + b, c) == |a| + IndexOf(b, c)
  {
    if a != [] {
      assert (a + b)[1..] == a[1..] + b;
      IndexOfAppend(a[1..], b, c);
    } else {
      assert a + b == b;
    }
  }

  lemma BeforeAppend(a: string, b: string, c: char)
    requires c !in a
    ensures Before(a + b, c) == a + Before(b, c)
  {
    IndexOfAppend(a, b, c);
    assert (a + b)[..|a| + IndexOf(b, c)] == a + b[..IndexOf(b, c)];
  }

  lemma BeforeKeepsPlainPath(p: string, c: char)
    requires IsPlainPath(p) && c != '/'
    ensures IsPlainPath(Before(p, c))
  {
  }

  /** A plain path starts with its first `/`, so nothing of it belongs to the authority. */
  lemma BeforeSlashOfPlainPath(p: string)
    requires IsPlainPath(p)
    ensures Before(p, '/') == []
  {
  }

  lemma GetSchemeSplits(scheme: string, rest: string)
    requires IsScheme(scheme)
    ensures GetScheme(scheme + ":" + rest) == Success((scheme, rest))
  {
    var u := scheme + ":" + rest;
    assert u[|scheme|] == ':';
    assert forall j :: 0 <= j < |scheme| ==> IsSchemeChar(u[j]);
    assert SchemeLength(u) == |scheme|;
    assert u[..|scheme|] == scheme;
    assert u[|scheme| + 1..] == rest;
  }

  lemma LastIndexOfAbsent(s: string, c: char)
    requires forall j :: 0 <= j < |s| ==> s[j] != c
    ensures LastIndexOf(s, c) == -1
  {
  }

  lemma PlainHostParses(host: string)
    requires IsPlainHost(host)
    ensures ParseAuthority(host) == Success(host)
  {
    HostCharsHaveNoDelimiters(host);
    LastIndexOfAbsent(host, '@');
    PortOKParses(host);
  }

  lemma PortOKParses(host: string)
    requires PortOK(host) && HostChars(host) && (host == [] || host[0] != '[')
    ensures ParseHost(host) == Success(host)
  {
    assert !HasRefusedHostChar(host) by {
      assert forall j :: 0 <= j < |host| ==> IsHostChar(host[j]);
    }
  }

  lemma AuthorityBeforePath(host: string, path: string)
    requires IsPlainHost(host) && IsPlainPath(path)
    ensures Before(host + path, '/') == host
  {
    HostCharsHaveNoDelimiters(host);
    BeforeAppend(host, path, '/');
    BeforeSlashOfPlainPath(path);
  }

  /** The authority of `//host` followed by a plain path is the host, and it parses to itself. */
  lemma AuthorityIsHost(scheme: string, host: string, path: string)
    requires scheme != [] && IsPlainHost(host) && IsPlainPath(path)
    ensures ParseAfterScheme(scheme, "//" + host + path) == Success(URL(scheme, host))
  {
    var rest := "//" + host + path;
    assert StartsWith(rest, "/") && StartsWith(rest, "//") by {
      assert rest[..2] == "//";
      assert rest[..1] == "/";
    }
    assert rest[2..] == host + path;
    AuthorityBeforePath(host, path);
    PlainHostParses(host);
  }

  lemma NoControlInPieces(a: string, b: string, c: string, d: string)
    requires !HasControl(a) && !HasControl(b) && !HasControl(c) && !HasControl(d)
    ensures !HasControl(a + b + c + d)
  {
    var u := a + b + c + d;
    forall j | 0 <= j < |u| ensures !IsControl(u[j]) {
      if j < |a| {
        assert u[j] == a[j];
      } else if j < |a| + |b| {
        assert u[j] == b[j - |a|];
      } else if j < |a| + |b| + |c| {
        assert u[j] == c[j - |a| - |b|];
      } else {
        assert u[j] == d[j - |a| - |b| - |c|];
      }
    }
  }

  /** Without its fragment, `scheme://host` and a plain path parse to the lower-cased scheme and the host. */
  lemma ReferenceSchemeHostPath(scheme: string, host: string, p1: string)
    requires IsScheme(scheme) && IsPlainHost(host) && IsPlainPath(p1)
    ensures ParseReference(scheme + ":" + ("//" + host + p1)) == Success(URL(ToLower(scheme), host))
  {
    HostCharsHaveNoDelimiters(host);
    var u := scheme + ":" + ("//" + host + p1);
    assert !HasControl(u) by {
      assert !HasControl(scheme) by {
        assert forall j :: 0 <= j < |scheme| ==> IsSchemeChar(scheme[j]);
      }
      assert !HasControl(":") && !HasControl("//");
      NoControlInPieces(scheme, ":" + "//", host, p1);
      assert scheme + (":" + "//") + host + p1 == u;
    }
    assert u != "*" by {
      assert u[|scheme|] == ':';
    }
    GetSchemeSplits(scheme, "//" + host + p1);
    assert '?' !in "//" + host;
    BeforeAppend("//" + host, p1, '?');
    var p2 := Before(p1, '?');
    BeforeKeepsPlainPath(p1, '?');
    assert |ToLower(scheme)| == |scheme|;
    AuthorityIsHost(ToLower(scheme), host, p2);
  }

  /**
   * `scheme://host` followed by any plain path parses to the lower-cased
   * scheme and the host: the path, query and fragment are dropped.
   */
  lemma ParseSchemeHostPath(scheme: string, host: string, path: string)
    requires IsScheme(scheme) && IsPlainHost(host) && IsPlainPath(path)
    ensures Parse(scheme + "://" + host + path) == Success(URL(ToLower(scheme), host))
  {
    var head := scheme + ":" + "//" + host;
    assert scheme + "://" + host + path == head + path;
    HostCharsHaveNoDelimiters(host);
    assert '#' !in head by {
      assert forall j :: 0 <= j < |scheme| ==> IsSchemeChar(scheme[j]);
    }
    BeforeAppend(head, path, '#');
    var p1 := Before(path, '#');
    BeforeKeepsPlainPath(path, '#');
    assert head + p1 == scheme + ":" + ("//" + host + p1);
    ReferenceSchemeHostPath(scheme, host, p1);
  }
}
