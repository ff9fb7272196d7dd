/** The environment of the OIDC proxy container, derived from the cluster and the provider. */
module Oidc {
  import opened Options
  import opened ApiTypes
  import opened Encodings
  import opened Texts
  import opened Urls

  datatype OidcProvider = OidcProvider(hostname: string, port: int, rootPath: string, providerHint: string)

  datatype SecretKeyRef = SecretKeyRef(secret: string, key: string)

  // The derived environment variables of the proxy; those with a fixed value are left out.
  datatype ProxyEnvironment = ProxyEnvironment(
    cookieSecret: string,        // OAUTH2_PROXY_COOKIE_SECRET
    clientId: SecretKeyRef,      // OAUTH2_PROXY_CLIENT_ID
    clientSecret: SecretKeyRef,  // OAUTH2_PROXY_CLIENT_SECRET
    issuerUrl: string,           // OAUTH2_PROXY_OIDC_ISSUER_URL
    scope: string,               // OAUTH2_PROXY_SCOPE
    provider: string,            // OAUTH2_PROXY_PROVIDER
    upstream: string)            // UPSTREAM

  // SHA-256 of a text, as 32 bytes; nothing else is assumed of it.
  type Digest = d: seq<Byte> | |d| == 32 witness seq(32, i => 0)

  const POD_IP_REFERENCE := "$(POD_IP)"

  function Scopes(spec: OidcSpec): seq<string> {
    ["openid", "email", "profile"] + if spec.extraScopes.Some? then spec.extraScopes.value else []
  }

  function IssuerHost(p: OidcProvider): string {
    if p.port != 0 && p.port != 80 then p.hostname + ":" + Itoa(p.port) else p.hostname
  }

  lemma IssuerHostIsByteText(p: OidcProvider)
    requires IsByteText(p.hostname)
    ensures IsByteText(IssuerHost(p))
  {
  }

  function IssuerUrl(p: OidcProvider): string
    requires IsByteText(p.hostname) && IsByteText(p.rootPath)
  {
    IssuerHostIsByteText(p);
    UrlString(IssuerHost(p), p.rootPath)
  }

  function CookieSecret(digest: Digest): string {
    var token := HexEncode(digest)[..16];
    Base64Shape(ToBytes(token));
    Base64Encode(ToBytes(Base64Encode(ToBytes(token))))
  }

  function Environment(digest: Digest, upstreamPort: int, spec: OidcSpec, p: OidcProvider): ProxyEnvironment
    requires IsByteText(p.hostname) && IsByteText(p.rootPath)
  {
    ProxyEnvironment(
      CookieSecret(digest),
      SecretKeyRef(spec.clientCredentialsSecret, "CLIENT_ID"),
      SecretKeyRef(spec.clientCredentialsSecret, "CLIENT_SECRET"),
      IssuerUrl(p),
      Join(Scopes(spec), " "),
      if p.providerHint == "keycloak" then "keycloak-oidc" else p.providerHint,
      "http://" + (POD_IP_REFERENCE + (":" + Itoa(upstreamPort))))
  }

  // ----- cookie secret -----

  lemma EncodedText(bytes: seq<Byte>)
    ensures var text := Base64Encode(bytes);
            IsByteText(text) && ToText(ToBytes(text)) == text && Base64Decode(text) == Some(bytes)
  {
    Base64Shape(bytes);
    Base64RoundTrip(bytes);
    TextOfBytes(Base64Encode(bytes));
  }

  lemma EncodedLength(bytes: seq<Byte>)
    ensures |bytes| == 16 ==> |Base64Encode(bytes)| == 24
    ensures |bytes| == 24 ==> |Base64Encode(bytes)| == 32 && '=' !in Base64Encode(bytes)
  {
    Base64Shape(bytes);
  }

  lemma DoubleEncoding(token: seq<Byte>)
    requires |token| == 16
    ensures var inner := Base64Encode(token);
            && IsByteText(inner) && |inner| == 24 && ToText(ToBytes(inner)) == inner
            && Base64Decode(inner) == Some(token)
            && var outer := Base64Encode(ToBytes(inner));
               |outer| == 32 && '=' !in outer && Base64Decode(outer) == Some(ToBytes(inner))
  {
    EncodedText(token);
    EncodedLength(token);
    EncodedText(ToBytes(Base64Encode(token)));
    EncodedLength(ToBytes(Base64Encode(token)));
  }

  /** The secret is 32 characters without padding; decoding it once gives 24 bytes, and decoding
      those gives the first 16 characters of the digest's hexadecimal text. */
  lemma CookieSecretDecodes(digest: Digest)
    ensures var secret := CookieSecret(digest);
            && |secret| == 32 && '=' !in secret
            && Base64Decode(secret).Some?
            && |Base64Decode(secret).value| == 24
            && Base64Decode(ToText(Base64Decode(secret).value)) == Some(ToBytes(HexEncode(digest)[..16]))
  {
    DoubleEncoding(ToBytes(HexEncode(digest)[..16]));
  }

  /** Two clusters share a secret exactly when the first eight bytes of their digests agree. */
  lemma CookieSecretsAgree(d1: Digest, d2: Digest)
    ensures CookieSecret(d1) == CookieSecret(d2) <==> d1[..8] == d2[..8]
  {
    HexPrefix(d1, 8);
    HexPrefix(d2, 8);
    HexInjective(d1[..8], d2[..8]);
    if CookieSecret(d1) == CookieSecret(d2) {
      CookieSecretDecodes(d1);
      CookieSecretDecodes(d2);
      var (t1, t2) := (HexEncode(d1)[..16], HexEncode(d2)[..16]);
      TextOfBytes(t1);
      TextOfBytes(t2);
      assert t1 == t2;
    }
  }

  // ----- scopes -----

  /** Splitting the scope value on spaces gives the three fixed scopes and then the extra ones, in
      order, exactly when no extra scope contains a space. */
  lemma ScopesSplitBack(spec: OidcSpec)
    ensures var extras := if spec.extraScopes.Some? then spec.extraScopes.value else [];
            Split(Join(Scopes(spec), " "), ' ') == ["openid", "email", "profile"] + extras <==> AllFree(extras, ' ')
  {
    var extras := if spec.extraScopes.Some? then spec.extraScopes.value else [];
    SplitJoin(Scopes(spec), ' ');
    assert forall i :: 0 <= i < |extras| ==> Scopes(spec)[i + 3] == extras[i];
    assert forall i :: 3 <= i < |Scopes(spec)| ==> Scopes(spec)[i] == extras[i - 3];
  }

  // ----- issuer -----

  function EffectivePort(port: int): int {
    if port == 0 then DEFAULT_PORT else port
  }

  function RootedPath(path: string): string {
    if path != "" && path[0] != '/' then "/" + path else path
  }

  // A host that can be told apart from a port: the registered names of section 3.2.2 of RFC 3986.
  ghost predicate IsNameHost(p: OidcProvider) {
    p.hostname != "" && ':' !in p.hostname && IsByteText(p.hostname) && IsByteText(p.rootPath)
  }

  lemma {:induction false} NatTextIsPlain(n: nat)
    ensures forall i :: 0 <= i < |NatText(n)| ==> Plain(NatText(n)[i], Host)
  {
    forall i | 0 <= i < |NatText(n)| ensures Plain(NatText(n)[i], Host) {
      assert IsAlphanumeric(NatText(n)[i]);
    }
  }

  lemma PortTextIsPlain(n: int)
    ensures IsByteText(Itoa(n)) && Escape(":" + Itoa(n), Host) == ":" + Itoa(n)
  {
    NatTextIsPlain(if n < 0 then -n else n);
    EscapeOfPlain(":" + Itoa(n), Host);
  }

  function PortText(port: int): string {
    if EffectivePort(port) == DEFAULT_PORT then "" else ":" + Itoa(port)
  }

  lemma SlashIsEscaped(host: string)
    requires IsByteText(host)
    ensures '/' !in Escape(host, Host)
  {
    assert !Plain('/', Host);
    EscapeAvoids(host, Host, '/');
  }

  lemma AuthorityText(p: OidcProvider)
    requires IsNameHost(p)
    ensures IsByteText(IssuerHost(p))
    ensures Escape(IssuerHost(p), Host) == Escape(p.hostname, Host) + PortText(p.port)
    ensures '/' !in Escape(IssuerHost(p), Host)
  {
    hide Escape, NatText;
    IssuerHostIsByteText(p);
    SlashIsEscaped(IssuerHost(p));
    if EffectivePort(p.port) != DEFAULT_PORT {
      PortTextIsPlain(p.port);
      EscapeAppends(p.hostname, ":" + Itoa(p.port), Host);
      assert p.hostname + (":" + Itoa(p.port)) == IssuerHost(p);
    } else {
      assert Escape(p.hostname, Host) + "" == Escape(p.hostname, Host);
    }
  }

  lemma AuthorityParses(p: OidcProvider)
    requires IsNameHost(p) && IsByteText(IssuerHost(p))
    ensures ParseAuthority(Escape(IssuerHost(p), Host)) == Some((p.hostname, EffectivePort(p.port)))
  {
    AuthorityText(p);
    var name := Escape(p.hostname, Host);
    var rest := PortText(p.port);
    EscapeAvoids(p.hostname, Host, ':');
    CutAtFirst(name, rest, ':');
    UnescapeEscape(p.hostname, Host);
    if rest != "" {
      assert rest[1..] == Itoa(p.port);
      ParseItoa(p.port);
    }
  }

  // The path as it stands in the URL.
  function PathText(path: string): string
    requires IsByteText(path)
  {
    if path == "*" then "/*" else Escape(RootedPath(path), Path)
  }

  lemma PathTextIsRooted(path: string)
    requires IsByteText(path)
    ensures PathText(path) == (if path != "" && path[0] != '/' then "/" else "") + EscapedPath(path)
  {
    assert Plain('/', Path);
    if path != "*" && path != "" && path[0] != '/' {
      assert ("/" + path)[1..] == path;
      assert EscapeChar('/', Path) == "/";
    }
  }

  lemma PathParses(path: string)
    requires IsByteText(path)
    ensures PathText(path) == "" || PathText(path)[0] == '/'
    ensures Unescape(PathText(path)) == Some(RootedPath(path))
  {
    assert Plain('/', Path);
    UnescapeEscape(RootedPath(path), Path);
    if path == "*" {
      assert "/*"[1..] == "*" && "*"[1..] == "";
      assert Unescape("") == Some("");
      assert Unescape("*") == Some("*");
    }
  }

  lemma Regroups(authority: string, lead: string, path: string)
    ensures "http:" + "//" + authority + lead + path == "http://" + (authority + (lead + path))
  {
    assert "http:" + "//" == "http://";
  }

  lemma IssuerText(p: OidcProvider)
    requires IsNameHost(p)
    ensures IsByteText(IssuerHost(p))
    ensures IssuerUrl(p) == "http://" + (Escape(IssuerHost(p), Host) + PathText(p.rootPath))
  {
    hide Escape, EscapedPath, PathText, Itoa;
    AuthorityText(p);
    PathTextIsRooted(p.rootPath);
    Regroups(Escape(IssuerHost(p), Host), if p.rootPath != "" && p.rootPath[0] != '/' then "/" else "",
             EscapedPath(p.rootPath));
  }

  /** The issuer URL of a provider with a registered name parses back to the same host, the same
      effective port and the same path, made absolute. */
  lemma IssuerParsesBack(p: OidcProvider)
    requires IsNameHost(p)
    ensures ParseUrl(IssuerUrl(p)) == Some(HttpUrl(p.hostname, EffectivePort(p.port), RootedPath(p.rootPath)))
  {
    AuthorityText(p);
    AuthorityParses(p);
    PathParses(p.rootPath);
    IssuerText(p);
    CutUrl(IssuerUrl(p), Escape(IssuerHost(p), Host), PathText(p.rootPath));
  }

  lemma CutUrl(url: string, authority: string, path: string)
    requires url == "http://" + (authority + path)
    requires '/' !in authority && (path == "" || path[0] == '/')
    ensures |url| >= 7 && url[..7] == "http://" && Cut(url[7..], '/') == (authority, path)
  {
    assert url[7..] == authority + path;
    CutAtFirst(authority, path, '/');
  }

  // The characters that are never escaped (section 2.3 of RFC 3986), and the slash.
  predicate NeedsNoEscape(c: char) {
    IsAlphanumeric(c) || c == '-' || c == '.' || c == '_' || c == '~'
  }

  /** A host and a path that need no escaping stand in the issuer URL as they are. */
  lemma IssuerIsLiteral(p: OidcProvider)
    requires IsNameHost(p)
    requires forall i :: 0 <= i < |p.hostname| ==> NeedsNoEscape(p.hostname[i])
    requires forall i :: 0 <= i < |p.rootPath| ==> NeedsNoEscape(p.rootPath[i]) || p.rootPath[i] == '/'
    ensures IssuerUrl(p) ==
            "http://" + (p.hostname + (if p.port == 0 || p.port == 80 then "" else ":" + Itoa(p.port))
                         + (if p.rootPath == "" || p.rootPath[0] == '/' then p.rootPath else "/" + p.rootPath))
  {
    assert forall c, part :: NeedsNoEscape(c) ==> Plain(c, part);
    assert Plain('/', Path);
    EscapeOfPlain(p.hostname, Host);
    EscapeOfPlain(RootedPath(p.rootPath), Path);
    AuthorityText(p);
    hide Escape, Itoa;
    IssuerText(p);
    assert p.rootPath != "*" by { if p.rootPath != "" { assert NeedsNoEscape(p.rootPath[0]) || p.rootPath[0] == '/'; } }
  }

  /** The issuer URL has no query and no fragment, and no space or line break, whatever host and path hold. */
  lemma IssuerIsClean(p: OidcProvider)
    requires IsNameHost(p)
    ensures forall c :: c in {'?', '#', ' ', '\n', '\\'} ==> c !in IssuerUrl(p)
  {
    forall c | c in {'?', '#', ' ', '\n', '\\'} ensures c !in IssuerUrl(p) {
      CleanOf(p, c);
    }
  }

  lemma CharIsClean(c: char)
    requires c in {'?', '#', ' ', '\n', '\\'}
    ensures !Plain(c, Host) && !Plain(c, Path) && c != '%' && !IsAlphanumeric(c)
    ensures c !in "http://" && c !in "/*"
  {
  }

  lemma CleanOf(p: OidcProvider, c: char)
    requires IsNameHost(p) && c in {'?', '#', ' ', '\n', '\\'}
    ensures c !in IssuerUrl(p)
  {
    hide Escape, IssuerUrl, IssuerHost, Plain, IsAlphanumeric, RootedPath;
    CharIsClean(c);
    IssuerText(p);
    EscapeAvoids(IssuerHost(p), Host, c);
    RootedIsByteText(p.rootPath);
    EscapeAvoids(RootedPath(p.rootPath), Path, c);
  }

  lemma RootedIsByteText(path: string)
    requires IsByteText(path)
    ensures IsByteText(RootedPath(path))
  {
  }

  /** Two providers get the same issuer URL exactly when host, effective port and absolute path agree,
      and either both or neither have the path "*", which alone is not escaped.  So ports 0 and 80 are
      the only two ports that are not told apart. */
  lemma IssuersAgree(p: OidcProvider, q: OidcProvider)
    requires IsNameHost(p) && IsNameHost(q)
    ensures IssuerUrl(p) == IssuerUrl(q) <==>
            p.hostname == q.hostname && EffectivePort(p.port) == EffectivePort(q.port)
            && RootedPath(p.rootPath) == RootedPath(q.rootPath) && (p.rootPath == "*" <==> q.rootPath == "*")
  {
    IssuerParsesBack(p);
    IssuerParsesBack(q);
    IssuerText(p);
    IssuerText(q);
    AuthorityText(p);
    AuthorityText(q);
    if IssuerUrl(p) == IssuerUrl(q) {
      CutUrl(IssuerUrl(p), Escape(IssuerHost(p), Host), PathText(p.rootPath));
      CutUrl(IssuerUrl(q), Escape(IssuerHost(q), Host), PathText(q.rootPath));
      StarIsAlone(p.rootPath);
      StarIsAlone(q.rootPath);
    }
  }

  lemma StarIsAlone(path: string)
    requires IsByteText(path)
    ensures PathText(path) == "/*" <==> path == "*"
  {
    EscapeAvoids(RootedPath(path), Path, '*');
    assert "/*"[1] == '*';
  }

  // ----- the whole environment -----

  /** The whole environment reads back: the token behind the cookie secret, the two credentials, each
      from its own key, the provider's address, every scope, and the pod itself as the upstream. */
  lemma EnvironmentReadsBack(digest: Digest, upstreamPort: int, spec: OidcSpec, p: OidcProvider)
    requires IsNameHost(p)
    requires spec.extraScopes.Some? ==> AllFree(spec.extraScopes.value, ' ')
    ensures var env := Environment(digest, upstreamPort, spec, p);
            && Base64Decode(env.cookieSecret).Some?
            && Base64Decode(ToText(Base64Decode(env.cookieSecret).value)) == Some(ToBytes(HexEncode(digest)[..16]))
            && env.clientId == SecretKeyRef(spec.clientCredentialsSecret, "CLIENT_ID")
            && env.clientSecret == SecretKeyRef(spec.clientCredentialsSecret, "CLIENT_SECRET")
            && ParseUrl(env.issuerUrl) == Some(HttpUrl(p.hostname, EffectivePort(p.port), RootedPath(p.rootPath)))
            && Split(env.scope, ' ') == Scopes(spec)
            && ParseUrl(env.upstream) == Some(HttpUrl(POD_IP_REFERENCE, upstreamPort, ""))
            && env.provider == (if p.providerHint in {"keycloak", "keycloak-oidc"} then "keycloak-oidc" else p.providerHint)
            && env.provider != "keycloak"
  {
    assert |"keycloak"| == 8 && |"keycloak-oidc"| == 13;
    CookieSecretDecodes(digest);
    IssuerParsesBack(p);
    ScopesSplitBack(spec);
    PodIpIsPlain();
    PortedUrlParses(POD_IP_REFERENCE, upstreamPort);
  }

  lemma PodIpIsPlain()
    ensures '%' !in POD_IP_REFERENCE && '/' !in POD_IP_REFERENCE && ':' !in POD_IP_REFERENCE
  {
  }

  lemma PortedAuthorityParses(name: string, port: int)
    requires '%' !in name && ':' !in name
    ensures ParseAuthority(name + (":" + Itoa(port))) == Some((name, port))
  {
    CutAtFirst(name, ":" + Itoa(port), ':');
    assert (":" + Itoa(port))[1..] == Itoa(port);
    ParseItoa(port);
    UnescapeOfPlain(name);
  }

  lemma PortedUrlParses(name: string, port: int)
    requires '%' !in name && '/' !in name && ':' !in name
    ensures ParseUrl("http://" + (name + (":" + Itoa(port)))) == Some(HttpUrl(name, port, ""))
  {
    var authority := name + (":" + Itoa(port));
    PortTextIsPlain(port);
    SlashIsEscaped(":" + Itoa(port));
    assert authority + "" == authority;
    CutUrl("http://" + authority, authority, "");
    PortedAuthorityParses(name, port);
    UnescapeOfPlain("");
  }

  lemma {:induction false} UnescapeOfPlain(s: string)
    requires '%' !in s
    ensures Unescape(s) == Some(s)
  {
    if s != "" {
      UnescapeOfPlain(s[1..]);
      assert s == [s[0]] + s[1..];
    }
  }
}
