/** URLs whose scheme is none of the special ones (section 4.4 of the WHATWG URL Standard), as the
    client and the plugins' drivers parse them. */
module Urls {
  import opened Addresses
  import opened Wrappers
  import opened Percent
  import opened Scan

  /** User info and path are taken over as they stand, which is what the parser does with text
      that is percent-encoded already. */
  datatype Url = Url(scheme: string, username: string, password: string, hostname: string, port: Option<nat>,
    pathname: string)

  predicate EndsAuthority(c: char) {
    c == '/' || c == '?' || c == '#'
  }

  function AuthorityEnd(s: string): (n: nat)
    ensures n <= |s|
  {
    if s == [] || EndsAuthority(s[0]) then 0 else 1 + AuthorityEnd(s[1..])
  }

  function PathEnd(s: string): (n: nat)
    ensures n <= |s|
  {
    if s == [] || s[0] == '?' || s[0] == '#' then 0 else 1 + PathEnd(s[1..])
  }

  predicate ForbiddenInHost(c: char) {
    c in {'\0', '\t', '\n', '\r', ' ', '#', '/', ':', '<', '>', '?', '@', '[', '\\', ']', '^', '|'}
  }

  predicate Visible(c: char) {
    '\U{1f}' < c <= '~'
  }

  /** An opaque host: control and non-ASCII characters are percent-encoded. */
  function OpaqueHost(s: string): string {
    if s == [] then []
    else (if Visible(s[0]) then [s[0]] else PercentBytes(Utf8(s[0]))) + OpaqueHost(s[1..])
  }

  function Segments(s: string): seq<string> {
    var slash := First(s, '/');
    if slash.None? then [s] else [s[..slash.value]] + Segments(s[slash.value + 1..])
  }

  /** A "." or "..", also in percent-encoded form, does not become a segment. */
  function Resolve(segs: seq<string>, done: seq<string>): seq<string> {
    if segs == [] then done
    else
      var last := |segs| == 1;
      if Unescape(segs[0]) == Some("..") then
        Resolve(segs[1..], (if done == [] then [] else done[..|done| - 1]) + if last then [""] else [])
      else if Unescape(segs[0]) == Some(".") then Resolve(segs[1..], done + if last then [""] else [])
      else Resolve(segs[1..], done + [segs[0]])
  }

  function Pathname(segs: seq<string>): string {
    if segs == [] then "" else "/" + segs[0] + Pathname(segs[1..])
  }

  /** User name and password of a user info: the first ':' separates them. */
  function UserInfo(s: string): (string, string) {
    var colon := First(s, ':');
    if colon.None? then (s, "") else (s[..colon.value], s[colon.value + 1..])
  }

  function ParsePort(s: string): Option<Option<nat>> {
    if s == "" then Some(None)
    else if !AllDigits(s) || Number(s) > 65535 then None
    else Some(Some(Number(s)))
  }

  predicate HostAllowed(host: string) {
    forall c :: c in host ==> !ForbiddenInHost(c)
  }

  predicate Bracketed(host: string) {
    host != "" && host[0] == '['
  }

  /** A bracketed host is an IPv6 address, any other an opaque host. */
  function ParseHost(host: string): Option<string> {
    if !Bracketed(host) then if HostAllowed(host) then Some(OpaqueHost(host)) else None
    else if |host| < 2 || host[|host| - 1] != ']' then None
    else
      var v := ParseAddress(host[1..|host| - 1]);
      if v.None? then None else Some("[" + PrintAddress(v.value) + "]")
  }

  /** A ':' between brackets does not begin a port. */
  function PortColon(s: string, inside: bool): (k: Option<nat>)
    ensures k.Some? ==> k.value < |s|
  {
    if s == [] then None
    else if s[0] == ':' && !inside then Some(0)
    else
      var k := PortColon(s[1..], StillInside(s[0], inside));
      if k.None? then None else Some(k.value + 1)
  }

  predicate StillInside(c: char, inside: bool) {
    c == '[' || (c != ']' && inside)
  }

  /** An empty host fails when there is a ':' behind it. */
  function HostAndPort(host: string, port: string): Option<(string, Option<nat>)> {
    if host == "" || ParseHost(host).None? || ParsePort(port).None? then None
    else Some((ParseHost(host).value, ParsePort(port).value))
  }

  function ParseHostPort(s: string): Option<(string, Option<nat>)> {
    var colon := PortColon(s, false);
    if colon.Some? then HostAndPort(s[..colon.value], s[colon.value + 1..])
    else if ParseHost(s).None? then None
    else Some((ParseHost(s).value, None))
  }

  /** The last '@' ends the user info, and then a host must follow. */
  function ParseAuthority(scheme: string, a: string, pathname: string): Option<Url> {
    var at := Last(a, '@');
    var user := if at.Some? then UserInfo(a[..at.value]) else ("", "");
    var place := ParseHostPort(if at.Some? then a[at.value + 1..] else a);
    if place.None? || (at.Some? && place.value.0 == "") then None
    else Some(Url(scheme, user.0, user.1, place.value.0, place.value.1, pathname))
  }

  function ParsePath(tail: string): string {
    var path := tail[..PathEnd(tail)];
    if path == "" then "" else Pathname(Resolve(Segments(path[1..]), []))
  }

  function ParseAfterScheme(scheme: string, s: string): Option<Url> {
    var end := AuthorityEnd(s);
    ParseAuthority(scheme, s[..end], ParsePath(s[end..]))
  }

  function ParseUrl(s: string): Option<Url> {
    var colon := First(s, ':');
    if colon.None? || colon.value == 0 then None
    else
      var scheme, rest := s[..colon.value], s[colon.value + 1..];
      if "//" <= rest then ParseAfterScheme(scheme, rest[2..])
      else Some(Url(scheme, "", "", "", None, rest))
  }

  // ---------------------------------------------------------------- what can come out

  /** Whether the brackets are open at the end. */
  predicate EndsInside(s: string, inside: bool) {
    if s == [] then inside else EndsInside(s[1..], StillInside(s[0], inside))
  }

  /** Text that is one host to the parser when it stands between '@' and ':'. */
  predicate OneHost(s: string) {
    && s != "" && '@' !in s && Within(s)
    && PortColon(s, false).None? && !EndsInside(s, false)
  }

  /** Nothing in the text ends an authority. */
  predicate Within(s: string) {
    forall c :: c in s ==> !EndsAuthority(c)
  }

  /** A host that the parser takes over as it stands: an address as it would be printed, or
      characters that a host can have. */
  predicate HostKept(s: string) {
    if Bracketed(s) then
      |s| >= 2 && s[|s| - 1] == ']'
      && (var v := ParseAddress(s[1..|s| - 1]); v.Some? && PrintAddress(v.value) == s[1..|s| - 1])
    else AllKept(s) && s != ""
  }

  predicate AllKept(s: string) {
    forall c :: c in s ==> Visible(c) && !ForbiddenInHost(c)
  }

  lemma PercentBytesKept(bs: seq<Byte>)
    ensures AllKept(PercentBytes(bs))
  {
    PercentEncoded(Plugin, bs);
  }

  lemma {:induction false} OpaqueHostIsKept(s: string)
    requires HostAllowed(s)
    ensures AllKept(OpaqueHost(s)) && (OpaqueHost(s) == "" <==> s == "")
  {
    if s != [] {
      PercentBytesKept(Utf8(s[0]));
      OpaqueHostIsKept(s[1..]);
    }
  }

  lemma {:induction false} OpaqueHostOfKept(s: string)
    requires forall c :: c in s ==> Visible(c)
    ensures OpaqueHost(s) == s
  {
    if s != [] {
      OpaqueHostOfKept(s[1..]);
      assert s[0] in s;
      assert [s[0]] + s[1..] == s;
    }
  }

  lemma {:induction false} NoPortColon(s: string, inside: bool)
    requires ':' !in s && '[' !in s
    ensures PortColon(s, inside).None? && (!inside ==> !EndsInside(s, inside))
  {
    if s != [] {
      NoPortColon(s[1..], StillInside(s[0], inside));
    }
  }

  lemma {:induction false} InsideUpTo(s: string)
    requires '[' !in s && ']' !in s
    ensures PortColon(s + "]", true).None? && !EndsInside(s + "]", true)
  {
    if s == [] {
      assert s + "]" == "]";
    } else {
      assert (s + "]")[1..] == s[1..] + "]";
      InsideUpTo(s[1..]);
    }
  }

  lemma AddressIsOne(inner: string)
    requires AllInAddress(inner)
    ensures OneHost("[" + inner + "]")
  {
    var s := "[" + inner + "]";
    InsideUpTo(inner);
    assert s[1..] == inner + "]";
  }

  lemma KeptIsOne(s: string)
    requires AllKept(s) && s != ""
    ensures OneHost(s)
  {
    NoPortColon(s, false);
  }

  /** Whatever host comes out would be one host again. */
  lemma ParsedHostIsOne(host: string)
    ensures ParseHost(host).Some? ==> ParseHost(host).value == "" || OneHost(ParseHost(host).value)
  {
    if ParseHost(host).Some? {
      if Bracketed(host) {
        var v := ParseAddress(host[1..|host| - 1]).value;
        PrintChars(v);
        AddressIsOne(PrintAddress(v));
      } else {
        OpaqueHostIsKept(host);
        if host != "" {
          KeptIsOne(OpaqueHost(host));
        }
      }
    }
  }

  lemma BracketsApart(x: string, host: string)
    requires |host| >= 2 && host[0] == '[' && host[|host| - 1] == ']'
    ensures "[" + x + "]" == host <==> x == host[1..|host| - 1]
  {
    assert host == "[" + host[1..|host| - 1] + "]";
    assert ("[" + x + "]")[1..|x| + 1] == x;
    assert |"[" + x + "]"| == |x| + 2;
  }

  /** The guard above is exact. */
  lemma HostKeptIff(host: string)
    ensures HostKept(host) <==> host != "" && ParseHost(host) == Some(host)
  {
    if Bracketed(host) {
      if |host| >= 2 && host[|host| - 1] == ']' {
        var v := ParseAddress(host[1..|host| - 1]);
        if v.Some? {
          BracketsApart(PrintAddress(v.value), host);
        }
      }
    } else if HostAllowed(host) {
      OpaqueHostIsKept(host);
      if AllKept(host) {
        OpaqueHostOfKept(host);
      }
    }
  }

  /** So every address, printed between brackets, is taken over. */
  lemma AddressKept(v: seq<nat>)
    requires |v| == 8 && AllPieces(v)
    ensures HostKept("[" + PrintAddress(v) + "]")
  {
    var s := "[" + PrintAddress(v) + "]";
    AddressBack(v);
    assert s[1..|s| - 1] == PrintAddress(v);
  }

  lemma ParsedHostPort(s: string)
    ensures
      var place := ParseHostPort(s);
      place.Some? ==>
        && (place.value.0 == "" || OneHost(place.value.0))
        && (place.value.1.Some? ==> place.value.1.value <= 65535)
  {
    var colon := PortColon(s, false);
    ParsedHostIsOne(if colon.Some? then s[..colon.value] else s);
  }

  ghost predicate Fine(url: Url) {
    && (url.hostname == "" || OneHost(url.hostname))
    && (url.port.Some? ==> url.port.value <= 65535)
  }

  lemma ParsedAuthority(scheme: string, a: string, pathname: string)
    ensures
      var url := ParseAuthority(scheme, a, pathname);
      url.Some? ==> Fine(url.value)
  {
    var at := Last(a, '@');
    ParsedHostPort(if at.Some? then a[at.value + 1..] else a);
  }

  /** Whatever the text, a host that comes out is one that would come out again, and a port is
      one of a socket. */
  lemma ParsedUrl(s: string)
    ensures
      var url := ParseUrl(s);
      url.Some? ==> Fine(url.value)
  {
    var colon := First(s, ':');
    if colon.Some? && colon.value > 0 {
      var scheme, rest := s[..colon.value], s[colon.value + 1..];
      if "//" <= rest {
        var end := AuthorityEnd(rest[2..]);
        ParsedAuthority(scheme, rest[2..][..end], ParsePath(rest[2..][end..]));
      }
    }
  }

  // ---------------------------------------------------------------- reading back

  function WithAt(info: Option<string>): string {
    if info.Some? then info.value + "@" else ""
  }

  function WithColon(port: Option<nat>): string {
    if port.Some? then ":" + Digits(port.value) else ""
  }

  /** An authority in print. */
  function Printed(info: Option<string>, host: string, port: Option<nat>): string {
    WithAt(info) + (host + WithColon(port))
  }

  lemma HostPortBare(host: string, port: Option<nat>)
    requires OneHost(host)
    ensures '@' !in host + WithColon(port) && Within(host + WithColon(port))
  {
  }

  lemma {:induction false} PortColonAt(host: string, inside: bool, port: string)
    requires PortColon(host, inside).None? && !EndsInside(host, inside)
    ensures PortColon(host + (":" + port), inside) == Some(|host|)
  {
    var s := host + (":" + port);
    if host == "" {
      assert s == ":" + port;
    } else {
      assert s[1..] == host[1..] + (":" + port);
      PortColonAt(host[1..], StillInside(host[0], inside), port);
    }
  }

  lemma SplitsAtColon(host: string, port: string)
    requires OneHost(host)
    ensures ParseHostPort(host + (":" + port)) == HostAndPort(host, port)
  {
    var s := host + (":" + port);
    PortColonAt(host, false, port);
    assert s[..|host|] == host && s[|host| + 1..] == port;
  }

  lemma PortBack(port: nat)
    ensures ParsePort(Digits(port)) == if port > 65535 then None else Some(Some(port))
  {
    NumberBack(port);
  }

  predicate BigPort(port: Option<nat>) {
    port.Some? && port.value > 65535
  }

  /** What host and port are read as, printed one behind the other. */
  function Place(host: string, port: Option<nat>): Option<(string, Option<nat>)> {
    if ParseHost(host).None? || BigPort(port) then None else Some((ParseHost(host).value, port))
  }

  lemma HostPortBack(host: string, port: Option<nat>)
    requires OneHost(host)
    ensures ParseHostPort(host + WithColon(port)) == Place(host, port)
  {
    if port.Some? {
      PortBack(port.value);
      SplitsAtColon(host, Digits(port.value));
    } else {
      assert host + "" == host;
    }
  }

  lemma CutsAtLastAt(scheme: string, info: string, hostPort: string, pathname: string)
    requires '@' !in hostPort
    ensures
      ParseAuthority(scheme, info + "@" + hostPort, pathname)
      == (var place := ParseHostPort(hostPort);
          if place.None? || place.value.0 == "" then None
          else Some(Url(scheme, UserInfo(info).0, UserInfo(info).1, place.value.0, place.value.1, pathname)))
  {
    LastAt(info, '@', hostPort);
    var a := info + "@" + hostPort;
    assert a[..|info|] == info && a[|info| + 1..] == hostPort;
  }

  function LoginOf(info: Option<string>): (string, string) {
    if info.Some? then UserInfo(info.value) else ("", "")
  }

  /** The URL of the parts. */
  function UrlOfParts(
    scheme: string, info: Option<string>, host: string, port: Option<nat>, path: string): Option<Url> {
    var place := Place(host, port);
    if place.None? then None
    else Some(Url(scheme, LoginOf(info).0, LoginOf(info).1, place.value.0, port, path))
  }

  lemma ParsedNonempty(host: string)
    requires host != "" && ParseHost(host).Some?
    ensures ParseHost(host).value != ""
  {
    if !Bracketed(host) {
      OpaqueHostIsKept(host);
    }
  }

  lemma AuthorityBack(scheme: string, info: Option<string>, host: string, port: Option<nat>, path: string)
    requires OneHost(host)
    ensures ParseAuthority(scheme, Printed(info, host, port), path) == UrlOfParts(scheme, info, host, port, path)
  {
    var hostPort := host + WithColon(port);
    HostPortBack(host, port);
    HostPortBare(host, port);
    if ParseHost(host).Some? {
      ParsedNonempty(host);
    }
    if info.Some? {
      CutsAtLastAt(scheme, info.value, hostPort, path);
    } else {
      LastNone(hostPort, '@');
      assert "" + hostPort == hostPort;
    }
  }

  lemma {:induction false} AuthorityEndAt(s: string, t: string)
    requires Within(s)
    requires t == [] || EndsAuthority(t[0])
    ensures AuthorityEnd(s + t) == |s|
  {
    if s == [] {
      assert s + t == t;
    } else {
      AuthorityEndAt(s[1..], t);
      assert (s + t)[1..] == s[1..] + t;
    }
  }

  lemma SchemeBack(scheme: string, text: string)
    requires scheme != "" && ':' !in scheme
    ensures ParseUrl(scheme + "://" + text) == ParseAfterScheme(scheme, text)
  {
    var value := scheme + "://" + text;
    FirstAt(scheme, ':', "//" + text);
    assert value == scheme + [':'] + ("//" + text);
    assert value[..|scheme|] == scheme && value[|scheme| + 1..] == "//" + text;
    assert ("//" + text)[2..] == text;
  }

  lemma AfterSchemeBack(scheme: string, authority: string, path: string)
    requires Within(authority) && (path == "" || EndsAuthority(path[0]))
    ensures ParseAfterScheme(scheme, authority + path) == ParseAuthority(scheme, authority, ParsePath(path))
  {
    AuthorityEndAt(authority, path);
    assert (authority + path)[..|authority|] == authority && (authority + path)[|authority|..] == path;
  }

  lemma UrlOfAuthority(scheme: string, authority: string, path: string)
    requires scheme != "" && ':' !in scheme
    requires Within(authority) && (path == "" || EndsAuthority(path[0]))
    ensures ParseUrl(scheme + "://" + (authority + path)) == ParseAuthority(scheme, authority, ParsePath(path))
  {
    SchemeBack(scheme, authority + path);
    AfterSchemeBack(scheme, authority, path);
  }

  lemma PrintedWithin(info: Option<string>, host: string, port: Option<nat>)
    requires OneHost(host) && (info.Some? ==> Within(info.value))
    ensures Within(Printed(info, host, port))
  {
    HostPortBare(host, port);
  }

  /** What comes back of a URL printed with one host. */
  lemma UrlBack(scheme: string, info: Option<string>, host: string, port: Option<nat>, path: string)
    requires scheme != "" && ':' !in scheme && OneHost(host)
    requires info.Some? ==> Within(info.value)
    requires path == "" || EndsAuthority(path[0])
    ensures
      ParseUrl(scheme + "://" + (Printed(info, host, port) + path))
      == UrlOfParts(scheme, info, host, port, ParsePath(path))
  {
    PrintedWithin(info, host, port);
    UrlOfAuthority(scheme, Printed(info, host, port), path);
    AuthorityBack(scheme, info, host, port, ParsePath(path));
  }

  lemma UserInfoAt(user: string, password: string)
    requires ':' !in user
    ensures UserInfo(user + ":" + password) == (user, password)
  {
    FirstAt(user, ':', password);
    var s := user + ":" + password;
    assert s[..|user|] == user && s[|user| + 1..] == password;
  }

  predicate LoginIs(info: string, user: string, password: string) {
    Unescape(UserInfo(info).0) == Some(user) && Unescape(UserInfo(info).1) == Some(password)
  }

  /** Escaped user info reads back, with a password and without. */
  lemma LoginBack(style: Style, user: string, password: string)
    ensures
      var info := Escape(style, user) + ":" + Escape(style, password);
      Within(info) && LoginIs(info, user, password)
  {
    EscapeIsBare(style, user);
    EscapeIsBare(style, password);
    UserInfoAt(Escape(style, user), Escape(style, password));
  }

  lemma UserBack(style: Style, user: string)
    ensures Within(Escape(style, user)) && LoginIs(Escape(style, user), user, "")
  {
    EscapeIsBare(style, user);
    FirstNone(Escape(style, user), ':');
    assert Unescape("") == Some("");
  }

  lemma {:induction false} PathEndAll(s: string)
    requires '?' !in s && '#' !in s
    ensures PathEnd(s) == |s|
  {
    if s != [] {
      PathEndAll(s[1..]);
    }
  }

  lemma {:induction false} PathEndAt(s: string, t: string)
    requires '?' !in s && '#' !in s && t != "" && t[0] in {'?', '#'}
    ensures PathEnd(s + t) == |s|
  {
    if s == [] {
      assert s + t == t;
    } else {
      PathEndAt(s[1..], t);
      assert (s + t)[1..] == s[1..] + t;
    }
  }

  /** A query or a fragment is no part of the path. */
  lemma QueryDropped(path: string, query: string)
    requires '?' !in path && '#' !in path && query != "" && query[0] in {'?', '#'}
    ensures ParsePath(path + query) == ParsePath(path)
  {
    PathEndAt(path, query);
    PathEndAll(path);
    assert (path + query)[..|path|] == path && path[..|path|] == path;
  }

  lemma OneSegment(seg: string)
    requires '/' !in seg && seg != ""
    ensures
      var path := Pathname(Resolve(Segments(seg), []));
      path == if Unescape(seg) == Some(".") || Unescape(seg) == Some("..") then "/" else "/" + seg
  {
  }

  /** A ".." takes the segment before it away, and a "." goes. */
  lemma TwoSegments(a: string, b: string)
    requires '/' !in a && '/' !in b && Unescape(a) != Some(".") && Unescape(a) != Some("..")
    ensures
      Resolve([a, b], [])
      == if Unescape(b) == Some("..") then [""] else if Unescape(b) == Some(".") then [a, ""] else [a, b]
  {
    assert [a, b][1..] == [b] && [b][1..] == [] && [] + [a] == [a];
    assert Resolve([a, b], []) == Resolve([b], [a]);
  }

  /** A path of one segment reads back unless it is a dot segment. */
  lemma PathBack(seg: string)
    requires seg != "" && Within(seg)
    ensures ParsePath("/" + seg) == if Unescape(seg) == Some(".") || Unescape(seg) == Some("..") then "/" else "/" + seg
  {
    var path := "/" + seg;
    PathEndAll(path);
    assert path[..|path|] == path && path[1..] == seg;
    OneSegment(seg);
  }
}
