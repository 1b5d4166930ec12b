/** Which TCP ports, and which namespace, the operand may reach its registry on. */
module Egress {
  import opened Text
  import opened NoProxy

  function Before(s: string, c: char): string {
    var i := IndexOf(s, c);
    if i < 0 then s else s[..i]
  }

  /** The host part of a releases pull spec: what precedes the first slash. */
  function Registry(releases: string): string { Before(releases, '/') }

  // ---- The port a URL names (section 3.2 of RFC 3986) --------------------

  datatype URL = URL(scheme: string, port: string)

  datatype Scheme = NoScheme | BadScheme | SchemeEnd(at: nat)

  predicate Alpha(c: char) { 'a' <= c <= 'z' || 'A' <= c <= 'Z' }
  predicate Control(c: char) { c < ' ' || c == '\U{7f}' }
  predicate Unreserved(c: char) {
    Alpha(c) || Digit(c) || c == '-' || c == '.' || c == '_' || c == '~'
  }
  predicate SubDelim(c: char) {
    ('$' <= c <= ',' && c != '%') || c == '!' || c == ';' || c == '='
  }
  predicate UserChar(c: char) {
    Unreserved(c) || SubDelim(c) || c == ':' || c == '%' || c == '@'
  }
  predicate HostChar(c: char) {
    || Unreserved(c) || SubDelim(c)
    || c == ':' || c == '[' || c == ']' || c == '<' || c == '>' || c == '"' || c == '%'
    || c >= '\U{80}'
  }

  predicate Hex(c: char) { '0' <= c <= '9' || 'a' <= c <= 'f' || 'A' <= c <= 'F' }

  /** Every percent sign is followed by two hexadecimal digits. */
  predicate Escapes(s: string) {
    forall i | 0 <= i < |s| && s[i] == '%' :: i + 2 < |s| && Hex(s[i + 1]) && Hex(s[i + 2])
  }

  /** In a host only bytes outside ASCII, and the percent sign, may be escaped. */
  predicate HostEscapes(s: string) {
    && Escapes(s)
    && forall i | 0 <= i < |s| && s[i] == '%' ::
         i + 2 < |s| && (!('0' <= s[i + 1] <= '7') || (s[i + 1] == '2' && s[i + 2] == '5'))
  }

  function Lower(s: string): string {
    seq(|s|, i requires 0 <= i < |s| => if 'A' <= s[i] <= 'Z' then s[i] - 'A' + 'a' else s[i])
  }

  /** Where the scheme of u ends, scanning from position i. */
  function FindScheme(u: string, i: nat): (r: Scheme)
    requires i <= |u|
    ensures r.SchemeEnd? ==> 0 < r.at < |u| && u[r.at] == ':'
    decreases |u| - i
  {
    if i == |u| then NoScheme
    else if Alpha(u[i]) then FindScheme(u, i + 1)
    else if Digit(u[i]) || u[i] == '+' || u[i] == '-' || u[i] == '.' then
      if i == 0 then NoScheme else FindScheme(u, i + 1)
    else if u[i] == ':' then if i == 0 then BadScheme else SchemeEnd(i)
    else NoScheme
  }

  /** Empty, or a colon and decimal digits. */
  predicate OptionalPort(s: string) {
    s == "" || (s[0] == ':' && Digits(s[1..]))
  }

  /** The port part of a host that passed ValidHost. */
  function PortOf(host: string): (p: string)
    ensures Digits(p)
  {
    var i := LastIndexOf(host, ':');
    if i >= 0 && OptionalPort(host[i..]) then host[i + 1..] else ""
  }

  predicate ValidHost(host: string) {
    && (forall c <- host :: HostChar(c))
    && if host != "" && host[0] == '[' then
         var i := LastIndexOf(host, ']');
         i >= 0 && OptionalPort(host[i + 1..]) && '%' !in host
       else
         var i := LastIndexOf(host, ':');
         (i < 0 || OptionalPort(host[i..])) && HostEscapes(host)
  }

  function ParseAuthority(scheme: string, authority: string): Option<URL> {
    var at := LastIndexOf(authority, '@');
    var host := authority[at + 1..];
    if !ValidHost(host) then None
    else if at >= 0 && !((forall c <- authority[..at] :: UserChar(c)) && Escapes(authority[..at])) then None
    else Some(URL(scheme, PortOf(host)))
  }

  /** The URL, provided the path that belongs to it is properly escaped. */
  function WithPath(url: Option<URL>, path: string): Option<URL> {
    if Escapes(path) then url else None
  }

  /** What remains of s from the first c on. */
  function From(s: string, c: char): string { s[|Before(s, c)|..] }

  /** The part of a URL after its scheme, which is empty when it has none. */
  function ParseRest(scheme: string, afterScheme: string): Option<URL> {
    var rest := Before(afterScheme, '?');
    if rest == "" || rest[0] != '/' then
      if scheme != "" then Some(URL(scheme, ""))
      else if ':' in Before(rest, '/') then None
      else WithPath(Some(URL("", "")), rest)
    else if |rest| >= 2 && rest[1] == '/' && (scheme != "" || |rest| < 3 || rest[2] != '/') then
      WithPath(ParseAuthority(scheme, Before(rest[2..], '/')), From(rest[2..], '/'))
    else WithPath(Some(URL(scheme, "")), rest)
  }

  function ParseURL(raw: string): Option<URL> {
    var u := Before(raw, '#');
    if (exists c <- u :: Control(c)) || !Escapes(From(raw, '#')) then None
    else
      match FindScheme(u, 0)
      case BadScheme => None
      case NoScheme => ParseRest("", u)
      case SchemeEnd(i) => ParseRest(Lower(u[..i]), u[i + 1..])
  }

  /** The port to connect to; None stands for the error. */
  function PortFromURL(raw: string): (r: Option<int>)
    ensures r.Some? ==> 1 <= r.value <= 65535
  {
    match ParseURL(raw)
    case None => None
    case Some(u) =>
      if Digits(u.port) && u.port != "" then
        if 1 <= Decimal(u.port) <= 65535 then Some(Decimal(u.port)) else None
      else if u.scheme == "http" then Some(80)
      else if u.scheme == "https" then Some(443)
      else None
  }

  predicate PlainHost(host: string) {
    host != "" && forall c <- host :: Unreserved(c)
  }

  lemma BeforeAbsent(s: string, c: char)
    requires c !in s
    ensures Before(s, c) == s && From(s, c) == "" && Escapes(From(s, c))
  {}

  predicate Web(scheme: string) { scheme == "http" || scheme == "https" }

  /** A web scheme is found. */
  lemma WebScheme(scheme: string, authority: string)
    requires Web(scheme)
    ensures var u := scheme + "://" + authority;
            && FindScheme(u, 0) == SchemeEnd(|scheme|) && Lower(u[..|scheme|]) == scheme
            && u[|scheme| + 1..] == "//" + authority
  {
    var u := scheme + "://" + authority;
    assert u[..|scheme|] == scheme;
    assert FindScheme(u, 2) == FindScheme(u, 3) == FindScheme(u, 4);
    if scheme == "https" { assert FindScheme(u, 4) == FindScheme(u, 5) == SchemeEnd(5); }
    assert Lower(scheme) == scheme;
  }

  lemma WebRest(scheme: string, authority: string)
    requires '?' !in authority && '/' !in authority && Web(scheme)
    ensures ParseRest(scheme, "//" + authority) == ParseAuthority(scheme, authority)
  {
    hide ParseAuthority, Escapes, Before, From;
    var rest := "//" + authority;
    BeforeAbsent(rest, '?');
    assert rest[2..] == authority;
    BeforeAbsent(authority, '/');
  }

  /** Parsing a web URL without a path is parsing its authority. */
  lemma WebAuthority(scheme: string, authority: string)
    requires Web(scheme) && forall c <- authority :: UserChar(c) && c != '/' && c != '%'
    ensures ParseURL(scheme + "://" + authority) == ParseAuthority(scheme, authority)
  {
    hide ParseAuthority, ParseRest, FindScheme, Lower, Escapes, Before, From;
    var u := scheme + "://" + authority;
    WebScheme(scheme, authority);
    forall c | c in u ensures !Control(c) && c != '#' {
      assert c in authority || c in "https://";
    }
    BeforeAbsent(u, '#');
    WebRest(scheme, authority);
  }

  /** Plain hosts and digits are good characters of a host and hold no other
      mark. */
  lemma PlainChars(host: string, digits: string)
    requires PlainHost(host) && Digits(digits)
    ensures var h := host + ":" + digits;
            && (forall c <- h :: HostChar(c)) && '@' !in h && '%' !in h && (h[0] != '[')
            && '@' !in host && '%' !in host && ':' !in host && host[0] != '[' && ':' !in h[|host| + 1..]
  {
    var h := host + ":" + digits;
    forall i | 0 <= i < |h|
      ensures HostChar(h[i]) && h[i] != '@' && h[i] != '%' && h[i] != '[' && (i != |host| ==> h[i] != ':')
    {
      if i < |host| {
        assert h[i] == host[i] && host[i] in host;
      } else if i > |host| {
        assert h[i] == digits[i - |host| - 1] && h[i] in digits;
      }
    }
  }

  lemma ColonPort(host: string, digits: string)
    requires Digits(digits)
    ensures var h := host + ":" + digits;
            h[|host|..] == ":" + digits && h[|host| + 1..] == digits && OptionalPort(h[|host|..])
  {
    var h := host + ":" + digits;
    assert h[|host|..] == ":" + digits;
    assert (":" + digits)[1..] == digits;
  }

  lemma WholeAuthority(scheme: string, host: string)
    requires '@' !in host && ValidHost(host)
    ensures ParseAuthority(scheme, host) == Some(URL(scheme, PortOf(host)))
  {
    assert LastIndexOf(host, '@') == -1 && host[-1 + 1..] == host;
  }

  lemma PlainHostPort(scheme: string, host: string, digits: string)
    requires PlainHost(host) && Digits(digits)
    ensures ParseAuthority(scheme, host + ":" + digits) == Some(URL(scheme, digits))
    ensures ParseAuthority(scheme, host) == Some(URL(scheme, ""))
  {
    hide LastIndexOf, Digits, PlainHost, OptionalPort, ParseAuthority, HostChar;
    var h := host + ":" + digits;
    PlainChars(host, digits);
    ColonPort(host, digits);
    LastIndex(h, ':', |host|);
    assert forall c <- host :: c in h;
    assert LastIndexOf(host, ':') == -1;
    assert ValidHost(h) && ValidHost(host);
    WholeAuthority(scheme, h);
    WholeAuthority(scheme, host);
  }

  /** A web URL with a port yields that port when it is one, an error otherwise;
      without a port it yields its scheme's. */
  lemma WebPort(scheme: string, host: string, n: nat)
    requires Web(scheme) && PlainHost(host)
    ensures PortFromURL(scheme + "://" + (host + ":" + ToDecimal(n))) == if 1 <= n <= 65535 then Some(n) else None
    ensures PortFromURL(scheme + "://" + host) == Some(if scheme == "http" then 80 else 443)
  {
    hide ParseURL, ParseAuthority;
    var h := host + ":" + ToDecimal(n);
    forall c | c in h ensures UserChar(c) && c != '/' && c != '%' {
      assert c in host || c == ':' || c in ToDecimal(n);
    }
    WebAuthority(scheme, h);
    WebAuthority(scheme, host);
    PlainHostPort(scheme, host, ToDecimal(n));
  }

  lemma BeforeAt(a: string, x: string, c: char)
    requires c !in a
    ensures Before(a + [c] + x, c) == a && From(a + [c] + x, c) == [c] + x
  {
    IndexAt(a, x, c);
  }

  /** A path without percent signs plays no part. */
  lemma WebPath(scheme: string, authority: string, path: string)
    requires Web(scheme) && forall c <- authority :: UserChar(c) && c != '/' && c != '%'
    requires forall c <- path :: c == '/' || (UserChar(c) && c != '%')
    ensures ParseURL(scheme + "://" + (authority + "/" + path)) == ParseAuthority(scheme, authority)
  {
    hide ParseAuthority, ParseRest, FindScheme, Lower, Escapes, Before, From;
    var rest := authority + "/" + path;
    var u := scheme + "://" + rest;
    WebScheme(scheme, rest);
    forall c | c in u ensures !Control(c) && c != '#' {
      assert c in authority || c in path || c in "https://";
    }
    BeforeAbsent(u, '#');
    PathRest(scheme, authority, path);
  }

  lemma PathRest(scheme: string, authority: string, path: string)
    requires Web(scheme) && '/' !in authority && '?' !in authority && '?' !in path && '%' !in path
    ensures ParseRest(scheme, "//" + (authority + "/" + path)) == ParseAuthority(scheme, authority)
  {
    hide ParseAuthority, Before, From;
    var rest := "//" + (authority + "/" + path);
    BeforeAbsent(rest, '?');
    assert rest[2..] == authority + ['/'] + path;
    BeforeAt(authority, path, '/');
    assert Escapes(['/'] + path);
  }

  /** So with a path behind it. */
  lemma WebPortPath(scheme: string, host: string, n: nat, path: string)
    requires Web(scheme) && PlainHost(host) && 1 <= n <= 65535
    requires forall c <- path :: c == '/' || (UserChar(c) && c != '%')
    ensures PortFromURL(scheme + "://" + (host + ":" + ToDecimal(n) + "/" + path)) == Some(n)
  {
    hide ParseURL, ParseAuthority;
    var h := host + ":" + ToDecimal(n);
    forall c | c in h ensures UserChar(c) && c != '/' && c != '%' {
      assert c in host || c == ':' || c in ToDecimal(n);
    }
    WebPath(scheme, h, path);
    PlainHostPort(scheme, host, ToDecimal(n));
  }

  /** So does a registry, as it is looked at under https. */
  lemma RegistryPort(host: string, n: nat)
    requires PlainHost(host)
    ensures PortFromURL("https://" + (host + ":" + ToDecimal(n)))
            == if 1 <= n <= 65535 then Some(n) else None
    ensures PortFromURL("https://" + host) == Some(443)
  {
    hide PortFromURL;
    WebPort("https", host, n);
    assert "https" + "://" + host == "https://" + host;
    assert "https" + "://" + (host + ":" + ToDecimal(n)) == "https://" + (host + ":" + ToDecimal(n));
  }

  // ---- The namespace of a cluster-internal registry ----------------------

  const SVC := ".svc"
  const SVC_CLUSTER_LOCAL := ".svc.cluster.local"

  /** The host of host:port or [host]:port; None when the port is missing or
      the brackets and colons do not add up. */
  function SplitHostPort(s: string): Option<string> {
    var i := LastIndexOf(s, ':');
    if i < 0 then None
    else if s[0] == '[' then
      var end := IndexOf(s, ']');
      if end < 0 || end + 1 != i then None
      else if '[' in s[1..] || ']' in s[end + 1..] then None
      else Some(s[1..end])
    else
      var host := s[..i];
      if ':' in host || '[' in s || ']' in s then None else Some(host)
  }

  function HostOnly(s: string): string {
    match SplitHostPort(s)
    case Some(h) => h
    case None => s
  }

  function CutSuffix(s: string, t: string): Option<string> {
    if HasSuffix(s, t) then Some(s[..|s| - |t|]) else None
  }

  function NamespaceOf(hostport: string): string {
    NamespaceIn(HostOnly(hostport))
  }

  function NamespaceIn(h: string): string {
    var cut := match CutSuffix(h, SVC_CLUSTER_LOCAL)
               case Some(p) => Some(p)
               case None => CutSuffix(h, SVC);
    match cut
    case None => ""
    case Some(prefix) =>
      var parts := Split(prefix, '.');
      if |parts| < 2 then "" else parts[|parts| - 1]
  }

  /** The last piece between dots. */
  lemma LastPart(prefix: string)
    ensures var parts := Split(prefix, '.');
            if '.' in prefix then
              |parts| >= 2 && '.' !in parts[|parts| - 1]
              && prefix == prefix[..LastIndexOf(prefix, '.')] + "." + parts[|parts| - 1]
            else |parts| == 1
  {
    var i := LastIndexOf(prefix, '.');
    if i >= 0 {
      var a, b := prefix[..i], prefix[i + 1..];
      assert prefix == a + "." + b;
      SplitConcat(a, b, '.');
      SplitWhole(b, '.');
    } else {
      SplitWhole(prefix, '.');
    }
  }

  /** A dot-free last piece is found back. */
  lemma LastPartOf(p: string, ns: string)
    requires '.' !in ns
    ensures |Split(p + "." + ns, '.')| >= 2
    ensures var parts := Split(p + "." + ns, '.'); parts[|parts| - 1] == ns
  {
    SplitConcat(p, ns, '.');
    SplitWhole(ns, '.');
  }

  ghost predicate InternalHost(h: string, p: string, ns: string) {
    h == p + "." + ns + SVC || h == p + "." + ns + SVC_CLUSTER_LOCAL
  }

  lemma SuffixOf(p: string, t: string)
    ensures HasSuffix(p + t, t) && (p + t)[..|p + t| - |t|] == p
  {}

  /** The namespace is found exactly when the host, its port stripped, is some
      name, a dot, the namespace and one of the two service suffixes. */
  lemma NamespaceIff(hostport: string, ns: string)
    requires ns != ""
    ensures NamespaceOf(hostport) == ns <==>
            '.' !in ns && exists p :: InternalHost(HostOnly(hostport), p, ns)
  {
    hide NamespaceIn, InternalHost, HostOnly;
    var h := HostOnly(hostport);
    if NamespaceIn(h) == ns { NamespaceShape(h, ns); }
    if '.' !in ns && exists p :: InternalHost(h, p, ns) {
      var p :| InternalHost(h, p, ns);
      NamespaceFound(h, p, ns);
    }
  }

  lemma NamespaceShape(h: string, ns: string)
    requires ns != "" && NamespaceIn(h) == ns
    ensures '.' !in ns && exists p :: InternalHost(h, p, ns)
  {
    hide Split, LastIndexOf;
    var cut := CutSuffix(h, SVC_CLUSTER_LOCAL);
    var prefix := if cut.Some? then cut.value else CutSuffix(h, SVC).value;
    LastPart(prefix);
    assert InternalHost(h, prefix[..LastIndexOf(prefix, '.')], ns);
  }

  lemma NamespaceFound(h: string, p: string, ns: string)
    requires '.' !in ns && InternalHost(h, p, ns)
    ensures NamespaceIn(h) == ns
  {
    hide Split;
    var q := p + "." + ns;
    LastPartOf(p, ns);
    if h == q + SVC_CLUSTER_LOCAL {
      SuffixOf(q, SVC_CLUSTER_LOCAL);
    } else {
      SuffixOf(q, SVC);
      assert h[|h| - 1] == 'c';
    }
  }

  predicate HostText(s: string) {
    s != "" && forall c <- s :: c != ':' && c != '[' && c != ']'
  }

  lemma NoBrackets(h: string, digits: string)
    requires HostText(h) && Digits(digits)
    ensures var s := h + ":" + digits; '[' !in s && ']' !in s && ':' !in s[|h| + 1..]
  {
    var s := h + ":" + digits;
    forall i | 0 <= i < |s| ensures s[i] != '[' && s[i] != ']' && (i > |h| ==> s[i] != ':') {
      if i < |h| {
        assert s[i] == h[i] && h[i] in h;
      } else if i > |h| {
        assert s[i] == digits[i - |h| - 1] && s[i] in digits;
      }
    }
  }

  lemma PortStrips(h: string, digits: string)
    requires HostText(h) && Digits(digits)
    ensures HostOnly(h) == h && HostOnly(h + ":" + digits) == h
  {
    hide LastIndexOf, Digits;
    var s := h + ":" + digits;
    assert s[..|h|] == h && s[0] == h[0];
    NoBrackets(h, digits);
    LastIndex(s, ':', |h|);
    assert SplitHostPort(s) == Some(h);
  }

  predicate Name(s: string) {
    HostText(s) && '.' !in s
  }

  lemma HostTextConcat(a: string, b: string)
    requires HostText(a) && HostText(b)
    ensures HostText(a + b)
  {}

  /** Building a service host and asking for its namespace are inverse, in both
      forms, with and without a port. */
  lemma NamespaceRoundTrip(svc: string, ns: string, port: nat, suffix: string)
    requires Name(svc) && Name(ns)
    requires suffix == SVC || suffix == SVC_CLUSTER_LOCAL
    ensures var h := svc + "." + ns + suffix;
            NamespaceOf(h) == ns && NamespaceOf(h + ":" + ToDecimal(port)) == ns
  {
    hide HostOnly, NamespaceOf, ToDecimal;
    var h := svc + "." + ns + suffix;
    HostTextConcat(svc, ".");
    HostTextConcat(svc + ".", ns);
    HostTextConcat(svc + "." + ns, suffix);
    PortStrips(h, ToDecimal(port));
    assert InternalHost(h, svc, ns);
    NamespaceIff(h, ns);
    NamespaceIff(h + ":" + ToDecimal(port), ns);
  }

  // ---- The ports ---------------------------------------------------------

  /** The registry's own port, 443 when its URL cannot be parsed. */
  function OwnPort(releases: string): (p: int)
    ensures 1 <= p <= 65535
  {
    match PortFromURL("https://" + Registry(releases))
    case Some(p) => p
    case None => 443
  }

  /** The registry is reached without the proxy. */
  predicate Direct(releases: string, env: ProxyEnv) {
    NamespaceOf(Registry(releases)) != "" || Bypasses(env.noProxy, Registry(releases))
  }

  function ProxyPort(v: string): seq<int> {
    if v == "" || PortFromURL(v).None? then [] else [PortFromURL(v).value]
  }

  function Distinct(a: seq<int>, b: seq<int>): seq<int> {
    a + (if a == b then [] else b)
  }

  /** The proxies' ports when there are any to use, else the registry's. */
  function PortsFor(releases: string, env: ProxyEnv): seq<int> {
    var proxies := if Direct(releases, env) then []
                   else Distinct(ProxyPort(env.http), ProxyPort(env.https));
    if proxies == [] then [OwnPort(releases)] else proxies
  }

  /** Ports in order of first use, each once. */
  class PortList {
    var seen: set<int>
    var ports: seq<int>

    ghost predicate Valid() reads this {
      && (forall p :: p in seen <==> p in ports)
      && (forall i, j | 0 <= i < j < |ports| :: ports[i] != ports[j])
    }

    constructor ()
      ensures Valid() && ports == []
    {
      seen := {};
      ports := [];
    }

    method Add(url: string, addDefaultOnErr: bool)
      requires Valid()
      modifies this
      ensures Valid()
      ensures var r := PortFromURL(url);
              var p := if r.Some? then r.value else 443;
              ports == old(ports) +
                if (r.None? && !addDefaultOnErr) || p in old(ports) then [] else [p]
    {
      var p := 443;
      match PortFromURL(url) {
        case Some(q) => p := q;
        case None => if !addDefaultOnErr { return; }
      }
      if p !in seen {
        seen := seen + {p};
        ports := ports + [p];
      }
    }
  }

  method EgressPorts(releases: string, env: ProxyEnv) returns (ports: seq<int>)
    ensures ports == PortsFor(releases, env)
    ensures Reaches(ports, PortFromURL(env.http), PortFromURL(env.https), Registry(releases), Direct(releases, env))
  {
    hide PortFromURL, NamespaceOf;
    var list := new PortList();
    var registry := Registry(releases);
    var bypass := NoProxy.NoProxy(env, registry);
    if NamespaceOf(registry) == "" && !bypass {
      if env.http != "" { list.Add(env.http, false); }
      if env.https != "" { list.Add(env.https, false); }
    }
    if |list.ports| == 0 { list.Add("https://" + registry, true); }
    ports := list.ports;
    PortsReach(releases, env);
  }

  /** What the ports are for: unless the registry is reached directly or neither
      proxy has a port, exactly the proxies' ports, http first, each once; and
      otherwise the registry's own, which is 443 when it cannot be read. */
  ghost predicate Reaches(ports: seq<int>, http: Option<int>, https: Option<int>, registry: string, direct: bool) {
    if !direct && (http.Some? || https.Some?) then
      && (forall p :: p in ports <==> http == Some(p) || https == Some(p))
      && (forall i, j | 0 <= i < j < |ports| :: ports[i] != ports[j])
      && (http.Some? ==> ports[0] == http.value)
    else
      |ports| == 1
      && match PortFromURL("https://" + registry)
         case Some(p) => ports[0] == p
         case None => ports[0] == 443
  }

  lemma NoPort()
    ensures PortFromURL("").None?
  {
    assert Before("", '#') == "" && From("", '#') == "";
  }

  lemma PortsReach(releases: string, env: ProxyEnv)
    ensures Reaches(PortsFor(releases, env), PortFromURL(env.http), PortFromURL(env.https), Registry(releases),
                    Direct(releases, env))
  {
    hide PortFromURL, Direct, Registry;
    NoPort();
  }

  /** One or two distinct real ports; two only when both proxies name one. A
      registry reached directly contributes its own port and nothing else. */
  lemma PortsShape(releases: string, env: ProxyEnv)
    ensures var ps := PortsFor(releases, env);
            && 1 <= |ps| <= 2
            && (forall p <- ps :: 1 <= p <= 65535)
            && (|ps| == 2 ==> ps[0] != ps[1] && !Direct(releases, env)
                              && ps == ProxyPort(env.http) + ProxyPort(env.https))
            && (Direct(releases, env) ==> ps == [OwnPort(releases)])
            && (ps != [OwnPort(releases)] ==>
                  !Direct(releases, env) && forall p <- ps :: [p] == ProxyPort(env.http) || [p] == ProxyPort(env.https))
  {}
}
