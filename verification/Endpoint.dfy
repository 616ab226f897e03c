/**
 Endpoint URLs: the sidecar builds pod://<pod>.<namespace>:<port>, the manager parses it.
 The authority follows section 3.2 of RFC 3986, as Go's net/url reads it.
 */
module Endpoint {
  import opened Wrappers
  import opened Decimal

  // ----- The sidecar -----

  const PORTS := 0x1_0000

  function ParsePort(rawPort: string): Option<nat> { ParseUint(rawPort, PORTS) }

  const POD: string := ['p', 'o', 'd']

  function PodURL(host: string, port: nat): string { POD + [':'] + (['/', '/'] + (host + [':'] + Print(port))) }

  /** The branch without an IP-address. */
  function BuildEndpointURL(rawPort: string, pod: string, namespace: string): Option<string> {
    if pod == [] && namespace == [] then None
    else
      match ParsePort(rawPort)
      case None => None
      case Some(port) => Some(PodURL(if namespace != [] then pod + ['.'] + namespace else pod, port))
  }

  /** The sidecar refuses two empty names and everything that is no port; otherwise the URL reads pod://pod.namespace:port. */
  lemma BuiltText(rawPort: string, pod: string, namespace: string)
    ensures var refused := (pod == [] && namespace == []) || rawPort == [] || !AllDigits(rawPort) || Value(rawPort) >= 65536;
      BuildEndpointURL(rawPort, pod, namespace)
        == if refused then None else Some("pod://" + (if namespace != [] then pod + "." + namespace else pod) + ":" + Print(Value(rawPort)))
  {
    assert "." == ['.'];
    if ParsePort(rawPort).Some? { PodText(if namespace != [] then pod + ['.'] + namespace else pod, Value(rawPort)); }
  }

  lemma PodText(host: string, port: nat)
    ensures PodURL(host, port) == "pod://" + host + ":" + Print(port)
  {
    assert "pod://" == POD + [':'] + ['/', '/'] && ":" == [':'];
    Regroup(POD + [':'], ['/', '/'], host, [':'], Print(port));
  }

  lemma Regroup(a: string, b: string, c: string, d: string, e: string)
    ensures a + (b + (c + d + e)) == a + b + c + d + e
  {
  }

  // ----- The manager -----

  datatype Target = Target(namespace: string, pod: string, port: string)

  /** The position of the last c, or -1. */
  function LastIndex(s: string, c: char): (i: int)
    ensures -1 <= i < |s| && (i >= 0 ==> s[i] == c) && forall j :: i < j < |s| ==> s[j] != c
  {
    if s == [] then -1 else if s[|s| - 1] == c then |s| - 1 else LastIndex(s[..|s| - 1], c)
  }

  /** The position of the first character in cs, or the length. */
  function IndexAny(s: string, cs: set<char>): (i: nat)
    ensures i <= |s| && (i < |s| ==> s[i] in cs) && forall j :: 0 <= j < i ==> s[j] !in cs
  {
    if s == [] || s[0] in cs then 0 else 1 + IndexAny(s[1..], cs)
  }

  function Until(s: string, cs: set<char>): string { s[..IndexAny(s, cs)] }

  predicate IsLetter(c: char) { 'a' <= c <= 'z' || 'A' <= c <= 'Z' }

  predicate IsControl(c: char) { c < ' ' || c == '\U{7F}' }

  predicate IsMark(c: char) { c in {'-', '_', '.', '~', '!', '$', '&', '\'', '(', ')', '*', '+', ',', ';', '='} }

  predicate IsUserChar(c: char) { IsLetter(c) || IsDigit(c) || IsMark(c) || c in {':', '%', '@'} }

  /** Characters a host may hold unescaped; those beyond ASCII are not checked. */
  predicate IsHostChar(c: char) { IsLetter(c) || IsDigit(c) || IsMark(c) || c in {':', '[', ']', '<', '>', '"'} || c > '\U{7F}' }

  function Lower(c: char): char { if 'A' <= c <= 'Z' then c - 'A' + 'a' else c }

  /** The scheme must be pod, in any case. */
  predicate IsPodScheme(s: string) { |s| == 3 && Lower(s[0]) == 'p' && Lower(s[1]) == 'o' && Lower(s[2]) == 'd' }

  /** The authority of a pod URL; in every other case the manager reports an error. */
  function Authority(rawURL: string): Option<string> {
    var u := Until(rawURL, {'#'});
    var i := IndexAny(u, {':'});
    if (exists k :: 0 <= k < |u| && IsControl(u[k])) || i == |u| || !IsPodScheme(u[..i]) then None
    else
      var rest := u[i + 1..];
      if |rest| < 2 || rest[0] != '/' || rest[1] != '/' then None else Some(Until(rest[2..], {'/', '?'}))
  }

  predicate IsUser(s: string) { forall i :: 0 <= i < |s| ==> IsUserChar(s[i]) }

  predicate IsHost(s: string) { forall i :: 0 <= i < |s| ==> IsHostChar(s[i]) }

  /** The host with its port, without user information; hosts with escapes or in brackets are not modelled. */
  function Host(authority: string): Option<string> {
    var at := LastIndex(authority, '@');
    var host := authority[at + 1..];
    var colon := LastIndex(host, ':');
    if at >= 0 && !IsUser(authority[..at]) then None
    else if host != [] && host[0] == '[' then None
    else if colon >= 0 && !AllDigits(host[colon + 1..]) then None
    else if !IsHost(host) then None
    else Some(host)
  }

  function SplitName(hostname: string, port: string): Option<Target> {
    var dot := LastIndex(hostname, '.');
    if dot <= 0 || dot == |hostname| - 1 then None else Some(Target(hostname[dot + 1..], hostname[..dot], port))
  }

  function SplitHost(host: string): Option<Target> {
    var colon := LastIndex(host, ':');
    if colon < 0 then SplitName(host, []) else SplitName(host[..colon], host[colon + 1..])
  }

  function SplitAuthority(authority: string): Option<Target> {
    match Host(authority)
    case None => None
    case Some(host) => SplitHost(host)
  }

  function ParseEndpoint(rawURL: string): Option<Target> {
    match Authority(rawURL)
    case None => None
    case Some(authority) => SplitAuthority(authority)
  }

  /** Whatever is parsed has two non-empty names, the namespace without a dot, a port of digits, and the scheme in front. */
  lemma ParsedIsSane(rawURL: string)
    requires ParseEndpoint(rawURL).Some?
    ensures Sane(ParseEndpoint(rawURL).value)
    ensures |rawURL| > 6 && Lower(rawURL[0]) == 'p' && Lower(rawURL[1]) == 'o' && Lower(rawURL[2]) == 'd' && rawURL[3..6] == "://"
  {
    var authority := Authority(rawURL);
    assert authority.Some?;
    SplitIsSane(authority.value);
    ParsedScheme(rawURL);
  }

  predicate Sane(t: Target) { t.pod != [] && t.namespace != [] && '.' !in t.namespace && AllDigits(t.port) }

  lemma HostIsSane(authority: string)
    requires Host(authority).Some?
    ensures var host := Host(authority).value; var colon := LastIndex(host, ':');
      |host| <= |authority| && (colon >= 0 ==> AllDigits(host[colon + 1..]))
  {
    var at := LastIndex(authority, '@');
    var host := authority[at + 1..];
    assert Host(authority).value == host;
  }

  lemma SplitIsSane(authority: string)
    requires SplitAuthority(authority).Some?
    ensures Sane(SplitAuthority(authority).value) && authority != []
  {
    HostIsSane(authority);
    SplitNames(Host(authority).value);
  }

  lemma SplitNames(host: string)
    requires SplitHost(host).Some? && (LastIndex(host, ':') >= 0 ==> AllDigits(host[LastIndex(host, ':') + 1..]))
    ensures Sane(SplitHost(host).value) && host != []
  {
  }

  lemma ParsedScheme(rawURL: string)
    requires Authority(rawURL).Some? && Authority(rawURL).value != []
    ensures |rawURL| > 6 && Lower(rawURL[0]) == 'p' && Lower(rawURL[1]) == 'o' && Lower(rawURL[2]) == 'd' && rawURL[3..6] == "://"
  {
    var u := Until(rawURL, {'#'});
    var i := IndexAny(u, {':'});
    assert i == 3 && u[3] == ':' && u[4..][0] == '/' && u[4..][1] == '/';
    assert u[..3][0] == u[0] && u[..3][1] == u[1] && u[..3][2] == u[2];
    assert u[3..6] == [':', '/', '/'];
  }

  // ----- Round trip -----

  /** Any text a host holds literally, except a colon or a bracket; every Kubernetes name is one. */
  predicate IsName(s: string) { forall i :: 0 <= i < |s| ==> IsHostChar(s[i]) && s[i] !in {':', '[', ']'} }

  lemma {:induction false} LastIndexIs(a: string, c: char, b: string)
    requires c !in b
    ensures LastIndex(a + [c] + b, c) == |a|
  {
    OnlyLast(a + [c] + b, c, |a|);
  }

  lemma {:induction false} OnlyLast(s: string, c: char, i: nat)
    requires i < |s| && s[i] == c && forall j :: i < j < |s| ==> s[j] != c
    ensures LastIndex(s, c) == i
  {
    if i < |s| - 1 { OnlyLast(s[..|s| - 1], c, i); }
  }

  lemma UntilAll(s: string, cs: set<char>)
    requires forall i :: 0 <= i < |s| ==> s[i] !in cs
    ensures Until(s, cs) == s
  { }

  lemma IndexAnyIs(a: string, c: char, b: string)
    requires c !in a
    ensures IndexAny(a + [c] + b, {c}) == |a|
  {
    var s := a + [c] + b;
    assert s[|a|] == c;
    assert forall j :: 0 <= j < |a| ==> s[j] == a[j];
  }

  lemma {:induction false} PlainURL(authority: string)
    requires IsHost(authority)
    ensures var u := POD + [':'] + (['/', '/'] + authority); forall i :: 0 <= i < |u| ==> u[i] !in {'#'} && !IsControl(u[i])
  {
    var u := POD + [':'] + (['/', '/'] + authority);
    forall i | 0 <= i < |u|
      ensures u[i] !in {'#'} && !IsControl(u[i])
    {
      if i >= 6 { assert u[i] == authority[i - 6] && IsHostChar(authority[i - 6]); }
    }
  }

  lemma {:induction false} AuthorityOf(authority: string)
    requires IsHost(authority)
    ensures Authority(POD + [':'] + (['/', '/'] + authority)) == Some(authority)
  {
    var rest := ['/', '/'] + authority;
    var u := POD + [':'] + rest;
    PlainURL(authority);
    UntilAll(u, {'#'});
    IndexAnyIs(POD, ':', rest);
    assert u[..3] == POD && u[4..] == rest && rest[2..] == authority;
    UntilAll(authority, {'/', '?'});
  }

  lemma HostOf(name: string, port: string)
    requires IsName(name) && AllDigits(port)
    ensures IsHost(name + [':'] + port) && Host(name + [':'] + port) == Some(name + [':'] + port)
  {
    var s := name + [':'] + port;
    assert forall i :: 0 <= i < |s| ==> s[i] != '@' && IsHostChar(s[i]);
    assert LastIndex(s, '@') == -1 && s[0..] == s;
    LastIndexIs(name, ':', port);
    assert s[|name| + 1..] == port;
    assert s[0] != '[';
  }

  lemma {:induction false} SplitPort(name: string, port: string)
    requires AllDigits(port)
    ensures SplitHost(name + [':'] + port) == SplitName(name, port)
  {
    var host := name + [':'] + port;
    LastIndexIs(name, ':', port);
    assert host[..|name|] == name && host[|name| + 1..] == port;
  }

  lemma {:induction false} ParsesThrough(name: string, port: string)
    requires IsName(name) && AllDigits(port)
    ensures SplitAuthority(name + [':'] + port) == SplitName(name, port)
  {
    HostOf(name, port);
    SplitPort(name, port);
  }

  lemma {:induction false} ParsesHost(name: string, number: nat)
    requires IsName(name)
    ensures ParseEndpoint(PodURL(name, number)) == SplitName(name, Print(number))
  {
    var host := name + [':'] + Print(number);
    HostOf(name, Print(number));
    AuthorityOf(host);
    var url := POD + [':'] + (['/', '/'] + host);
    assert PodURL(name, number) == url;
    ParsesThrough(name, Print(number));
  }

  lemma JoinedName(pod: string, namespace: string)
    requires IsName(pod) && IsName(namespace)
    ensures IsName(pod + ['.'] + namespace)
  { }

  /** Splitting at the last dot undoes joining with a dot exactly if both parts are non-empty and the namespace has no dot. */
  lemma SplitJoined(pod: string, namespace: string, port: string)
    ensures SplitName(pod + ['.'] + namespace, port) == Some(Target(namespace, pod, port))
      <==> pod != [] && namespace != [] && '.' !in namespace
  {
    var s := pod + ['.'] + namespace;
    if '.' !in namespace {
      LastIndexIs(pod, '.', namespace);
      assert s[..|pod|] == pod && s[|pod| + 1..] == namespace;
    } else {
      var k :| 0 <= k < |namespace| && namespace[k] == '.';
      assert s[|pod| + 1 + k] == '.';
      assert LastIndex(s, '.') >= |pod| + 1;
    }
  }

  lemma {:induction false} JoinedComesBack(port: nat, pod: string, namespace: string)
    requires IsName(pod) && IsName(namespace)
    ensures ParseEndpoint(PodURL(pod + ['.'] + namespace, port)) == Some(Target(namespace, pod, Print(port)))
      <==> pod != [] && namespace != [] && '.' !in namespace
  {
    JoinedName(pod, namespace);
    ParsesHost(pod + ['.'] + namespace, port);
    SplitJoined(pod, namespace, Print(port));
  }

  /** What the manager reads out of the URL that the sidecar builds. */
  function ThereAndBack(rawPort: string, pod: string, namespace: string): Option<Target> {
    match BuildEndpointURL(rawPort, pod, namespace)
    case None => None
    case Some(url) => ParseEndpoint(url)
  }

  /** What comes back is what went in exactly for an accepted port and two names of which the namespace has no dot. */
  lemma {:induction false} EndpointRoundTrip(rawPort: string, pod: string, namespace: string)
    requires IsName(pod) && IsName(namespace)
    ensures ParsePort(rawPort).None? ==> ThereAndBack(rawPort, pod, namespace) == None
    ensures ParsePort(rawPort).Some? ==>
      (ThereAndBack(rawPort, pod, namespace) == Some(Target(namespace, pod, Print(ParsePort(rawPort).value)))
       <==> pod != [] && namespace != [] && '.' !in namespace)
  {
    if ParsePort(rawPort).Some? {
      var port := ParsePort(rawPort).value;
      if namespace != [] {
        assert ThereAndBack(rawPort, pod, namespace) == ParseEndpoint(PodURL(pod + ['.'] + namespace, port));
        JoinedComesBack(port, pod, namespace);
      } else if pod != [] {
        WithoutNamespace(rawPort, pod);
      }
    }
  }

  /** The namespace is optional for the sidecar, yet the manager then rejects the URL, or takes the end of a dotted pod for the namespace. */
  lemma {:induction false} WithoutNamespace(rawPort: string, pod: string)
    requires pod != [] && IsName(pod) && ParsePort(rawPort).Some?
    ensures BuildEndpointURL(rawPort, pod, []).Some?
    ensures ParseEndpoint(BuildEndpointURL(rawPort, pod, []).value) == SplitName(pod, Print(ParsePort(rawPort).value))
    ensures ParseEndpoint(BuildEndpointURL(rawPort, pod, []).value).Some? <==> 0 < LastIndex(pod, '.') < |pod| - 1
  {
    ParsesHost(pod, ParsePort(rawPort).value);
  }

  /** The port that comes back is a port again, and the same number; it is the same text exactly without leading zeros. */
  lemma PortRoundTrip(rawPort: string)
    requires ParsePort(rawPort).Some?
    ensures ParsePort(Print(ParsePort(rawPort).value)) == ParsePort(rawPort)
    ensures Print(ParsePort(rawPort).value) == rawPort <==> |rawPort| == 1 || rawPort[0] != '0'
  {
    ValueOfPrint(ParsePort(rawPort).value);
    PrintOfValue(rawPort);
  }
}
