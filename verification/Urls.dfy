/**
 Percent-encoding and recomposition of the http URLs that Go's net/url builds from a host and a path
 (section 5.3 of RFC 3986).  Strings are byte strings: every character is below 256.
 */
module Urls {
  import opened Options
  import opened Encodings
  import opened Texts

  datatype Part = Host | Path

  predicate IsAlphanumeric(c: char) {
    'a' <= c <= 'z' || 'A' <= c <= 'Z' || '0' <= c <= '9'
  }

  // What url.String leaves as it is in a host and in a path.
  predicate Plain(c: char, part: Part) {
    IsAlphanumeric(c)
    || c == '-' || c == '_' || c == '.' || c == '~' || c == '$' || c == '&' || c == '+' || c == ',' || c == ';'
    || c == '=' || c == ':'
    || if part.Host? then c == '!' || c == '\'' || c == '(' || c == ')' || c == '*' || c == '[' || c == ']'
                           || c == '<' || c == '>' || c == '"'
       else c == '/' || c == '@'
  }

  function UpperHex(v: int): char
    requires 0 <= v < 16
  {
    if v < 10 then '0' + v as char else 'A' + (v - 10) as char
  }

  function HexValue(c: char): (v: Option<int>)
    ensures v.Some? ==> 0 <= v.value < 16
  {
    if '0' <= c <= '9' then Some(c as int - '0' as int)
    else if 'A' <= c <= 'F' then Some(c as int - 'A' as int + 10)
    else if 'a' <= c <= 'f' then Some(c as int - 'a' as int + 10)
    else None
  }

  function EscapeChar(c: char, part: Part): string
    requires c as int < 256
  {
    if Plain(c, part) then [c] else ['%', UpperHex(c as int / 16), UpperHex(c as int % 16)]
  }

  function Escape(s: string, part: Part): string
    requires IsByteText(s)
  {
    if s == "" then "" else EscapeChar(s[0], part) + Escape(s[1..], part)
  }

  function Unescape(s: string): Option<string> {
    if s == "" then Some("")
    else if s[0] != '%' then
      match Unescape(s[1..])
      case None => None
      case Some(rest) => Some([s[0]] + rest)
    else if |s| < 3 || HexValue(s[1]).None? || HexValue(s[2]).None? then None
    else
      match Unescape(s[3..])
      case None => None
      case Some(rest) => Some([(HexValue(s[1]).value * 16 + HexValue(s[2]).value) as char] + rest)
  }

  lemma UnescapeChar(c: char, part: Part, tail: string)
    requires c as int < 256 && Unescape(tail).Some?
    ensures Unescape(EscapeChar(c, part) + tail) == Some([c] + Unescape(tail).value)
  {
    var s := EscapeChar(c, part) + tail;
    if Plain(c, part) {
      assert s[1..] == tail;
    } else {
      assert s[3..] == tail;
    }
  }

  lemma {:induction false} UnescapeEscape(s: string, part: Part)
    requires IsByteText(s)
    ensures Unescape(Escape(s, part)) == Some(s)
  {
    if s != "" {
      UnescapeEscape(s[1..], part);
      UnescapeChar(s[0], part, Escape(s[1..], part));
      assert s == [s[0]] + s[1..];
    }
  }

  lemma {:induction false} EscapeAvoids(s: string, part: Part, c: char)
    requires IsByteText(s)
    requires c != '%' && !IsAlphanumeric(c) && (!Plain(c, part) || c !in s)
    ensures c !in Escape(s, part)
  {
    if s != "" { EscapeAvoids(s[1..], part, c); }
  }

  lemma {:induction false} EscapeAppends(s: string, t: string, part: Part)
    requires IsByteText(s) && IsByteText(t)
    ensures IsByteText(s + t) && Escape(s + t, part) == Escape(s, part) + Escape(t, part)
  {
    if s == "" {
      assert s + t == t;
    } else {
      EscapeAppends(s[1..], t, part);
      assert (s + t)[1..] == s[1..] + t;
      var first := EscapeChar(s[0], part);
      assert first + (Escape(s[1..], part) + Escape(t, part)) == first + Escape(s[1..], part) + Escape(t, part);
    }
  }

  lemma {:induction false} EscapeOfPlain(s: string, part: Part)
    requires IsByteText(s) && forall i :: 0 <= i < |s| ==> Plain(s[i], part)
    ensures Escape(s, part) == s
  {
    if s != "" { EscapeOfPlain(s[1..], part); }
  }

  // URL.EscapedPath without a raw path
  function EscapedPath(path: string): string
    requires IsByteText(path)
  {
    if path == "*" then "*" else Escape(path, Path)
  }

  // URL.String for the scheme http, no user, query or fragment
  function UrlString(host: string, path: string): string
    requires IsByteText(host) && IsByteText(path)
  {
    "http:"
    + (if host != "" || path != "" then "//" else "")
    + Escape(host, Host)
    + (if path != "" && path[0] != '/' && host != "" then "/" else "")
    + EscapedPath(path)
  }

  // ----- reading such a URL back (section 3 of RFC 3986) -----

  datatype HttpUrl = HttpUrl(host: string, port: int, path: string)

  const DEFAULT_PORT := 80

  function ParseAuthority(authority: string): Option<(string, int)> {
    var (name, rest) := Cut(authority, ':');
    match Unescape(name)
    case None => None
    case Some(host) =>
      if rest == "" then Some((host, DEFAULT_PORT))
      else
        match ParseInt(rest[1..])
        case None => None
        case Some(port) => Some((host, port))
  }

  function ParseUrl(url: string): Option<HttpUrl> {
    if |url| < 7 || url[..7] != "http://" then None
    else
      var (authority, rest) := Cut(url[7..], '/');
      match (ParseAuthority(authority), Unescape(rest))
      case (Some((host, port)), Some(path)) => Some(HttpUrl(host, port, path))
      case _ => None
  }
}
