/**
 From a producer's endpoint to a service name and port (internal/controller/producer/networkpolicy.go,
 parseServiceNameAndPortFromEndpointUrl), with the part of URL parsing that it relies on (RFC 3986, sections 3.2.2
 and 3.2.3; the default ports are those of RFC 9110, sections 4.2.1 and 4.2.2).
 */
module Endpoints {
  import opened Wrappers

  /** `Unmodelled` stands for user information, bracketed IP literals and percent-encoded hosts. */
  datatype ParseError = Malformed | PortOutOfRange | Unmodelled

  datatype Target = Target(service: string, port: nat)

  const HTTP := "http://"
  const HTTPS := "https://"
  const MAX_INT32 := 0x7fff_ffff

  /** Position of the first character that is in `stops`. */
  function IndexOf(s: string, stops: set<char>): (i: nat)
    ensures i <= |s|
    ensures i < |s| ==> s[i] in stops
    ensures forall j :: 0 <= j < i ==> s[j] !in stops
  {
    if s == "" || s[0] in stops then 0 else 1 + IndexOf(s[1..], stops)
  }

  lemma IndexOfPart(a: string, b: string, stops: set<char>)
    requires forall c | c in a :: c !in stops
    requires b == "" || b[0] in stops
    ensures IndexOf(a + b, stops) == |a|
    ensures (a + b)[..|a|] == a && (a + b)[|a|..] == b
  {
  }

  predicate IsDigit(c: char) {
    '0' <= c <= '9'
  }

  predicate AllDigits(s: string) {
    forall c | c in s :: IsDigit(c)
  }

  /** The value of a string of decimal digits. */
  function Value(s: string): nat
    requires AllDigits(s)
  {
    if s == "" then 0 else assert s[|s| - 1] in s; 10 * Value(s[..|s| - 1]) + (s[|s| - 1] as int - '0' as int)
  }

  function Decimal(n: nat): (s: string)
    ensures AllDigits(s) && s != ""
  {
    var last := ('0' as int + n % 10) as char;
    if n < 10 then [last] else Decimal(n / 10) + [last]
  }

  lemma {:induction false} ValueOfDecimal(n: nat)
    ensures Value(Decimal(n)) == n
  {
    var s := Decimal(n);
    if n >= 10 {
      assert s[..|s| - 1] == Decimal(n / 10);
      ValueOfDecimal(n / 10);
    } else {
      assert s[..|s| - 1] == "";
    }
  }

  /** The number without its last `k` digits. */
  function Leading(n: nat, k: nat): nat {
    if k == 0 then n else Leading(n / 10, k - 1)
  }

  /** The digits of a number are those of the decimal system, without leading zeros. */
  lemma {:induction false} DecimalDigit(n: nat, k: nat)
    ensures k < |Decimal(n)| <==> k == 0 || Leading(n, k) != 0
    ensures k < |Decimal(n)| ==> Decimal(n)[|Decimal(n)| - 1 - k] as int - '0' as int == Leading(n, k) % 10
  {
    if n >= 10 && k > 0 {
      DecimalDigit(n / 10, k - 1);
    } else if k > 0 {
      NothingLeads(k - 1);
    }
  }

  lemma {:induction false} NothingLeads(k: nat)
    ensures Leading(0, k) == 0
  {
    if k > 0 {
      NothingLeads(k - 1);
    }
  }

  predicate IsControl(c: char) {
    c < ' ' || c == 127 as char
  }

  predicate IsHex(c: char) {
    IsDigit(c) || 'a' <= c <= 'f' || 'A' <= c <= 'F'
  }

  /** Every percent sign starts an escape. */
  predicate WellEscaped(s: string) {
    forall i | 0 <= i < |s| && s[i] == '%' :: i + 2 < |s| && IsHex(s[i + 1]) && IsHex(s[i + 2])
  }

  /** Characters that may stand unescaped in a host; beyond ASCII everything may. */
  predicate IsHostChar(c: char) {
    || IsDigit(c) || 'a' <= c <= 'z' || 'A' <= c <= 'Z' || c >= 128 as char
    || c in {'-', '_', '.', '~', '!', '$', '&', '\'', '(', ')', '*', '+', ',', ';', '=', '<', '>', '"'}
  }

  /** What follows the authority: a path and a query without control characters, and a fragment. */
  predicate AcceptableTail(tail: string) {
    var i := IndexOf(tail, {'#'});
    var j := IndexOf(tail[..i], {'?'});
    && (forall c | c in tail[..i] :: !IsControl(c))
    && WellEscaped(tail[..i][..j]) && WellEscaped(tail[i..])
  }

  /** The service is the first label of the host. An empty port is as good as none. */
  function ParseHostAndPort(host: string, port: string, defaultPort: nat): (r: Result<Target, ParseError>)
    requires defaultPort <= MAX_INT32
    ensures r.Success? ==> r.value.port <= MAX_INT32 && '.' !in r.value.service
  {
    var service := host[..IndexOf(host, {'.'})];
    if !AllDigits(port) || (exists c :: c in host && !IsHostChar(c)) then Failure(Malformed)
    else if port == "" then Success(Target(service, defaultPort))
    else if Value(port) > MAX_INT32 then Failure(PortOutOfRange)
    else Success(Target(service, Value(port)))
  }

  /** Splits `host` or `host:port`; a second colon makes the port invalid. */
  function ParseAuthority(authority: string, defaultPort: nat): (r: Result<Target, ParseError>)
    requires defaultPort <= MAX_INT32
    ensures r.Success? ==> r.value.port <= MAX_INT32 && '.' !in r.value.service
  {
    if exists c :: c in authority && c in {'@', '[', ']', '%'} then Failure(Unmodelled)
    else
      var i := IndexOf(authority, {':'});
      ParseHostAndPort(authority[..i], if i < |authority| then authority[i + 1..] else "", defaultPort)
  }

  function ParseRest(rest: string, defaultPort: nat): (r: Result<Target, ParseError>)
    requires defaultPort <= MAX_INT32
    ensures r.Success? ==> r.value.port <= MAX_INT32 && '.' !in r.value.service
  {
    var i := IndexOf(rest, {'/', '?', '#'});
    if !AcceptableTail(rest[i..]) then Failure(Malformed) else ParseAuthority(rest[..i], defaultPort)
  }

  /** An endpoint without a scheme is taken for HTTP. Whatever is accepted fits into 32 bits and has no dot. */
  function ParseEndpoint(endpoint: string): (r: Result<Target, ParseError>)
    ensures r.Success? ==> r.value.port <= MAX_INT32 && '.' !in r.value.service
  {
    if HTTPS <= endpoint then ParseRest(endpoint[|HTTPS|..], 443)
    else if HTTP <= endpoint then ParseRest(endpoint[|HTTP|..], 80)
    else ParseRest(endpoint, 80)
  }

  datatype Scheme = NoScheme | Http | Https

  /** An endpoint as people write it. */
  datatype Endpoint = Endpoint(scheme: Scheme, name: string, suffix: Option<string>, port: Option<nat>, tail: string)

  function Host(e: Endpoint): string {
    e.name + (if e.suffix.None? then "" else "." + e.suffix.value)
  }

  function Authority(e: Endpoint): string {
    Host(e) + (if e.port.None? then "" else ":" + Decimal(e.port.value))
  }

  function SchemePrefix(s: Scheme): string {
    match s
    case NoScheme => ""
    case Http => HTTP
    case Https => HTTPS
  }

  function Print(e: Endpoint): string {
    SchemePrefix(e.scheme) + Authority(e) + e.tail
  }

  function DefaultPort(s: Scheme): nat {
    if s.Https? then 443 else 80
  }

  /** Any service name without a dot, any host suffix, any port and any path, query and fragment a URL may have. */
  predicate Printable(e: Endpoint) {
    && (forall c | c in Host(e) :: IsHostChar(c)) && '.' !in e.name
    && (e.tail == "" || e.tail[0] in {'/', '?', '#'}) && AcceptableTail(e.tail)
  }

  /** The service name and the port, or the default port of the scheme; a port beyond 32 bits is an error. */
  function Expected(e: Endpoint): Result<Target, ParseError> {
    if e.port.Some? && e.port.value > MAX_INT32 then Failure(PortOutOfRange)
    else Success(Target(e.name, if e.port.Some? then e.port.value else DefaultPort(e.scheme)))
  }

  /** Host characters delimit nothing, and neither do digits. */
  lemma PlainChars(s: string, stops: set<char>)
    requires forall c | c in s :: IsHostChar(c) || IsDigit(c)
    requires stops <= {':', '/', '?', '#', '@', '[', ']', '%'}
    ensures forall c | c in s :: c !in stops
  {
  }

  lemma HostParsed(host: string, service: string, defaultPort: nat)
    requires forall c | c in host :: IsHostChar(c)
    requires host[..IndexOf(host, {'.'})] == service && defaultPort <= MAX_INT32
    ensures ParseAuthority(host, defaultPort) == Success(Target(service, defaultPort))
  {
    PlainChars(host, {':'});
    PlainChars(host, {'@', '[', ']', '%'});
    IndexOfPart(host, "", {':'});
    assert host + "" == host;
  }

  /** The parts that an authority with a port splits into, and that it holds nothing unmodelled. */
  lemma AuthorityParts(host: string, port: string)
    requires (forall c | c in host :: IsHostChar(c)) && AllDigits(port)
    ensures var authority := host + (":" + port);
      && IndexOf(authority, {':'}) == |host| < |authority|
      && authority[..|host|] == host && authority[|host| + 1..] == port
      && forall c | c in authority :: c !in {'@', '[', ']', '%'}
  {
    PlainChars(host, {':'});
    PlainChars(host, {'@', '[', ']', '%'});
    PlainChars(port, {'@', '[', ']', '%'});
    var authority := host + (":" + port);
    IndexOfPart(host, ":" + port, {':'});
    assert authority[|host| + 1..] == authority[|host|..][1..] == port;
    assert forall c | c in authority :: c in host || c == ':' || c in port;
  }

  lemma HostAndPortParsed(host: string, service: string, port: string, defaultPort: nat)
    requires forall c | c in host :: IsHostChar(c)
    requires AllDigits(port) && port != "" && defaultPort <= MAX_INT32
    requires host[..IndexOf(host, {'.'})] == service
    ensures ParseAuthority(host + (":" + port), defaultPort) ==
      if Value(port) > MAX_INT32 then Failure(PortOutOfRange) else Success(Target(service, Value(port)))
  {
    AuthorityParts(host, port);
    assert ParseAuthority(host + (":" + port), defaultPort) == ParseHostAndPort(host, port, defaultPort);
  }

  lemma ServiceOfHost(e: Endpoint)
    requires Printable(e)
    ensures Host(e)[..IndexOf(Host(e), {'.'})] == e.name
  {
    IndexOfPart(e.name, if e.suffix.None? then "" else "." + e.suffix.value, {'.'});
  }

  lemma AuthorityParsed(e: Endpoint)
    requires Printable(e)
    ensures ParseAuthority(Authority(e), DefaultPort(e.scheme)) == Expected(e)
  {
    ServiceOfHost(e);
    if e.port.None? {
      assert Host(e) + "" == Host(e);
      HostParsed(Host(e), e.name, DefaultPort(e.scheme));
    } else {
      PortParsed(Host(e), e.name, e.port.value, DefaultPort(e.scheme));
    }
  }

  lemma PortParsed(host: string, service: string, port: nat, defaultPort: nat)
    requires forall c | c in host :: IsHostChar(c)
    requires host[..IndexOf(host, {'.'})] == service && defaultPort <= MAX_INT32
    ensures ParseAuthority(host + (":" + Decimal(port)), defaultPort) ==
      if port > MAX_INT32 then Failure(PortOutOfRange) else Success(Target(service, port))
  {
    ValueOfDecimal(port);
    var decimal := Decimal(port);
    assert AllDigits(decimal) && decimal != "" && Value(decimal) == port;
    HostAndPortParsed(host, service, decimal, defaultPort);
  }

  /** An endpoint printed without a scheme does not look as if it had one. */
  lemma NoSchemeSeen(e: Endpoint)
    requires Printable(e) && e.scheme.NoScheme?
    ensures !(HTTP <= Print(e)) && !(HTTPS <= Print(e))
  {
    var s := Print(e);
    assert s == Authority(e) + e.tail;
    if HTTP <= s {
      StartsWithScheme(s, HTTP, 4);
      ColonBeforeSlash(e, 4);
    } else if HTTPS <= s {
      StartsWithScheme(s, HTTPS, 5);
      ColonBeforeSlash(e, 5);
    }
  }

  lemma StartsWithScheme(s: string, scheme: string, i: nat)
    requires scheme <= s && ((scheme == HTTP && i == 4) || (scheme == HTTPS && i == 5))
    ensures i + 1 < |s| && s[i] == ':' && s[i + 1] == '/' && forall j | 0 <= j < i :: 'a' <= s[j] <= 'z'
  {
  }

  /** Letters, a colon and a slash cannot come in this order: behind the colon of the authority stands a digit. */
  lemma ColonBeforeSlash(e: Endpoint, i: nat)
    requires Printable(e)
    ensures var s := Authority(e) + e.tail;
      !(i + 1 < |s| && s[i] == ':' && s[i + 1] == '/' && forall j | 0 <= j < i :: 'a' <= s[j] <= 'z')
  {
    var host, s := Host(e), Authority(e) + e.tail;
    PlainChars(host, {':'});
    if i < |host| {
      assert s[i] == host[i] && host[i] in host;
    } else if i == |host| && e.port.Some? {
      var port := Decimal(e.port.value);
      assert s[i + 1] == port[0] && port[0] in port;
    } else if i < |Authority(e)| {
      var port := Decimal(e.port.value);
      assert s[i] == port[i - |host| - 1] && port[i - |host| - 1] in port;
    } else if i < |s| {
      assert s[|Authority(e)|] == e.tail[0];
    }
  }

  lemma AuthorityPlain(e: Endpoint)
    requires Printable(e)
    ensures forall c | c in Authority(e) :: c !in {'/', '?', '#'}
  {
  }

  lemma RestParsed(e: Endpoint)
    requires Printable(e)
    ensures ParseRest(Authority(e) + e.tail, DefaultPort(e.scheme)) ==
        ParseAuthority(Authority(e), DefaultPort(e.scheme))
  {
    AuthorityPlain(e);
    IndexOfPart(Authority(e), e.tail, {'/', '?', '#'});
  }

  lemma SchemeSeen(scheme: Scheme, rest: string)
    requires scheme.NoScheme? ==> !(HTTP <= rest) && !(HTTPS <= rest)
    ensures ParseEndpoint(SchemePrefix(scheme) + rest) == ParseRest(rest, DefaultPort(scheme))
  {
    var s := SchemePrefix(scheme) + rest;
    assert s[|SchemePrefix(scheme)|..] == rest;
    assert scheme.Http? ==> s[4] == ':';
  }

  /** Printing and parsing an endpoint gives back what it was printed from. */
  lemma PrintParse(e: Endpoint)
    requires Printable(e)
    ensures ParseEndpoint(Print(e)) == Expected(e)
  {
    var rest := Authority(e) + e.tail;
    assert Print(e) == SchemePrefix(e.scheme) + rest;
    if e.scheme.NoScheme? {
      NoSchemeSeen(e);
      assert Print(e) == rest;
    }
    SchemeSeen(e.scheme, rest);
    AuthorityParsed(e);
    RestParsed(e);
  }

  /** The text of a port, with its colon. */
  function PortText(digits: Option<string>): string {
    if digits.None? then "" else ":" + digits.value
  }

  lemma AuthorityIsWritten(authority: string, defaultPort: nat) returns (host: string, digits: Option<string>)
    requires defaultPort <= MAX_INT32 && ParseAuthority(authority, defaultPort).Success?
    ensures authority == host + PortText(digits) && (forall c | c in host :: IsHostChar(c))
    ensures digits.Some? ==> AllDigits(digits.value)
    ensures ParseAuthority(authority, defaultPort).value ==
      Target(host[..IndexOf(host, {'.'})],
             if digits.None? || digits.value == "" then defaultPort else Value(digits.value))
  {
    var i := IndexOf(authority, {':'});
    host := authority[..i];
    digits := if i < |authority| then Some(authority[i + 1..]) else None;
  }

  lemma RestSplits(rest: string, defaultPort: nat, i: nat)
    requires defaultPort <= MAX_INT32 && ParseRest(rest, defaultPort).Success? && i == IndexOf(rest, {'/', '?', '#'})
    ensures rest == rest[..i] + rest[i..]
    ensures ParseRest(rest, defaultPort) == ParseAuthority(rest[..i], defaultPort)
    ensures (rest[i..] == "" || rest[i..][0] in {'/', '?', '#'}) && AcceptableTail(rest[i..])
  {
  }

  lemma RestIsWritten(rest: string, defaultPort: nat) returns (host: string, digits: Option<string>, tail: string)
    requires defaultPort <= MAX_INT32 && ParseRest(rest, defaultPort).Success?
    ensures rest == (host + PortText(digits)) + tail
    ensures (forall c | c in host :: IsHostChar(c)) && (digits.Some? ==> AllDigits(digits.value))
    ensures (tail == "" || tail[0] in {'/', '?', '#'}) && AcceptableTail(tail)
    ensures ParseRest(rest, defaultPort).value ==
      Target(host[..IndexOf(host, {'.'})],
             if digits.None? || digits.value == "" then defaultPort else Value(digits.value))
  {
    var i := IndexOf(rest, {'/', '?', '#'});
    RestSplits(rest, defaultPort, i);
    tail := rest[i..];
    host, digits := AuthorityIsWritten(rest[..i], defaultPort);
  }

  /**
   The converse of PrintParse: whatever is accepted is written as a scheme or none, a host, a port or none and a tail,
   and service and port are those of the text; an empty port is as good as none, and leading zeros do not count.
   */
  lemma AcceptedIsWritten(s: string) returns (scheme: Scheme, host: string, digits: Option<string>, tail: string)
    requires ParseEndpoint(s).Success?
    ensures s == SchemePrefix(scheme) + ((host + PortText(digits)) + tail)
    ensures (forall c | c in host :: IsHostChar(c)) && (digits.Some? ==> AllDigits(digits.value))
    ensures forall c | c in host ::
      c > ' ' && c != 127 as char
      && c !in {'#', '%', '/', ':', '?', '@', '[', '\\', ']', '^', '`', '{', '|', '}'}
    ensures (tail == "" || tail[0] in {'/', '?', '#'}) && AcceptableTail(tail)
    ensures ParseEndpoint(s).value ==
      Target(host[..IndexOf(host, {'.'})],
             if digits.None? || digits.value == "" then DefaultPort(scheme) else Value(digits.value))
  {
    scheme := if HTTPS <= s then Https else if HTTP <= s then Http else NoScheme;
    var rest := s[|SchemePrefix(scheme)|..];
    assert s == SchemePrefix(scheme) + rest && ParseEndpoint(s) == ParseRest(rest, DefaultPort(scheme));
    host, digits, tail := RestIsWritten(rest, DefaultPort(scheme));
    forall c { HostCharIff(c); }
  }

  /** A host may hold everything but controls, the space, and characters that delimit, escape or are unsafe. */
  lemma HostCharIff(c: char)
    ensures IsHostChar(c) <==>
      c > ' ' && c != 127 as char
      && c !in {'#', '%', '/', ':', '?', '@', '[', '\\', ']', '^', '`', '{', '|', '}'}
  {
  }

  /** The percent sign at `i` is followed by two hexadecimal digits. */
  predicate Escapes(s: string, i: nat) {
    && i + 2 < |s|
    && ('0' <= s[i + 1] <= '9' || 'a' <= s[i + 1] <= 'f' || 'A' <= s[i + 1] <= 'F')
    && ('0' <= s[i + 2] <= '9' || 'a' <= s[i + 2] <= 'f' || 'A' <= s[i + 2] <= 'F')
  }

  /** The fragment starts at `i`, and before it the query at `j`. */
  predicate Parts(tail: string, i: nat, j: nat) {
    && j <= i <= |tail| && (i < |tail| ==> tail[i] == '#') && (j < i ==> tail[j] == '?')
    && (forall k | 0 <= k < i :: tail[k] != '#') && (forall k | 0 <= k < j :: tail[k] != '?')
  }

  predicate InFragment(tail: string, k: nat)
    requires k < |tail|
  {
    '#' in tail[..k + 1]
  }

  predicate InQuery(tail: string, k: nat)
    requires k < |tail|
  {
    '#' !in tail[..k + 1] && '?' in tail[..k + 1]
  }

  lemma PartsLocated(tail: string, i: nat, j: nat, k: nat)
    requires Parts(tail, i, j) && k < |tail|
    ensures InFragment(tail, k) <==> i <= k
    ensures InQuery(tail, k) <==> j <= k < i
  {
    assert i <= k ==> tail[..k + 1][i] == '#';
    assert j <= k < i ==> tail[..k + 1][j] == '?';
  }

  /** Controls may stand in a fragment only, and percent signs in a query or where they start an escape. */
  lemma AcceptableTailIff(tail: string)
    ensures AcceptableTail(tail) <==>
      && (forall k | 0 <= k < |tail| && !InFragment(tail, k) :: tail[k] >= ' ' && tail[k] != 127 as char)
      && (forall k | 0 <= k < |tail| && tail[k] == '%' && !InQuery(tail, k) :: Escapes(tail, k))
  {
    var i := IndexOf(tail, {'#'});
    var j := IndexOf(tail[..i], {'?'});
    assert Parts(tail, i, j);
    forall k | 0 <= k < |tail| {
      PartsLocated(tail, i, j, k);
    }
    assert forall k | 0 <= k < i :: tail[k] in tail[..i];
    PathEscapes(tail, i, j);
    FragmentEscapes(tail, i);
  }

  lemma PathEscapes(tail: string, i: nat, j: nat)
    requires Parts(tail, i, j)
    ensures WellEscaped(tail[..i][..j]) <==> forall k | 0 <= k < j && tail[k] == '%' :: Escapes(tail, k)
  {
    assert tail[..i][..j] == tail[..j];
    WellEscapedIff(tail[..j]);
    forall k | 0 <= k < j
      ensures Escapes(tail[..j], k) <==> Escapes(tail, k)
    {
      EscapeEndsBefore(tail, j, k);
    }
  }

  /** An escape does not reach beyond a question mark or a hash. */
  lemma EscapeEndsBefore(tail: string, j: nat, k: nat)
    requires k < j <= |tail| && (j < |tail| ==> tail[j] in {'?', '#'})
    ensures Escapes(tail[..j], k) <==> Escapes(tail, k)
  {
  }

  lemma FragmentEscapes(tail: string, i: nat)
    requires i <= |tail|
    ensures WellEscaped(tail[i..]) <==> forall k | i <= k < |tail| && tail[k] == '%' :: Escapes(tail, k)
  {
    var fragment := tail[i..];
    WellEscapedIff(fragment);
    forall k | i <= k < |tail|
      ensures tail[k] == fragment[k - i] && (Escapes(tail, k) <==> Escapes(fragment, k - i))
    {
    }
    assert forall k | 0 <= k < |fragment| :: fragment[k] == tail[k + i];
  }

  lemma WellEscapedIff(s: string)
    ensures WellEscaped(s) <==> forall k | 0 <= k < |s| && s[k] == '%' :: Escapes(s, k)
  {
  }

  /** A label of a host name, as services have them (RFC 1123, section 2.1). */
  predicate IsLabelChar(c: char) {
    '0' <= c <= '9' || 'a' <= c <= 'z' || 'A' <= c <= 'Z' || c == '-'
  }

  /** The endpoint of a service, with or without a scheme, a port and a path: what the operator makes of it. */
  lemma ServiceEndpoint(name: string, suffix: string, port: nat, path: string)
    requires (forall c | c in name :: IsLabelChar(c)) && (forall c | c in suffix :: IsLabelChar(c) || c == '.')
    requires path == "" || (path[0] == '/' && forall c | c in path :: c == '/' || c == '.' || IsLabelChar(c))
    ensures var host := name + "." + suffix;
      && ParseEndpoint("" + host + path) == Success(Target(name, 80))
      && ParseEndpoint("http://" + host + path) == Success(Target(name, 80))
      && ParseEndpoint("https://" + host + path) == Success(Target(name, 443))
    ensures var authority := name + "." + suffix + ":" + Decimal(port);
      var expected := if port > 2147483647 then Failure(PortOutOfRange) else Success(Target(name, port));
      && ParseEndpoint("" + authority + path) == expected
      && ParseEndpoint("http://" + authority + path) == expected
      && ParseEndpoint("https://" + authority + path) == expected
  {
    PlainPath(path);
    forall scheme ensures
      var prefix := SchemePrefix(scheme);
      ParseEndpoint(prefix + (name + "." + suffix) + path) == Success(Target(name, DefaultPort(scheme)))
    {
      ServiceWithoutPort(scheme, name, suffix, path);
    }
    forall scheme ensures
      ParseEndpoint(SchemePrefix(scheme) + (name + "." + suffix + ":" + Decimal(port)) + path) ==
      if port > 2147483647 then Failure(PortOutOfRange) else Success(Target(name, port))
    {
      ServiceWithPort(scheme, name, suffix, port, path);
    }
    assert SchemePrefix(NoScheme) == "" && SchemePrefix(Http) == "http://" && SchemePrefix(Https) == "https://";
  }

  lemma PlainPath(path: string)
    requires forall c | c in path :: c == '/' || c == '.' || IsLabelChar(c)
    ensures AcceptableTail(path)
  {
    AcceptableTailIff(path);
    assert forall i | 0 <= i < |path| :: path[i] in path;
  }

  lemma Associative(a: string, b: string, c: string)
    ensures a + b + c == a + (b + c)
  {
  }

  lemma ServiceWithoutPort(scheme: Scheme, name: string, suffix: string, path: string)
    requires (forall c | c in name :: IsLabelChar(c)) && (forall c | c in suffix :: IsLabelChar(c) || c == '.')
    requires (path == "" || path[0] == '/') && AcceptableTail(path)
    ensures ParseEndpoint(SchemePrefix(scheme) + (name + "." + suffix) + path) ==
      Success(Target(name, DefaultPort(scheme)))
  {
    var e := Endpoint(scheme, name, Some(suffix), None, path);
    Associative(name, ".", suffix);
    assert Authority(e) == Host(e);
    PrintParse(e);
  }

  lemma ServiceWithPort(scheme: Scheme, name: string, suffix: string, port: nat, path: string)
    requires (forall c | c in name :: IsLabelChar(c)) && (forall c | c in suffix :: IsLabelChar(c) || c == '.')
    requires (path == "" || path[0] == '/') && AcceptableTail(path)
    ensures ParseEndpoint(SchemePrefix(scheme) + (name + "." + suffix + ":" + Decimal(port)) + path) ==
      if port > 2147483647 then Failure(PortOutOfRange) else Success(Target(name, port))
  {
    var e := Endpoint(scheme, name, Some(suffix), Some(port), path);
    Associative(name, ".", suffix);
    Associative(name + "." + suffix, ":", Decimal(port));
    PrintParse(e);
  }
}
