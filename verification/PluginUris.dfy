/** The connection URIs of the Mongo and Redis plugins, and the client caches keyed by them. */
module PluginUris {
  import opened Wrappers
  import opened Percent
  import opened Scan
  import opened Urls

  /** `port` is an i64; 0 stands for the default. */
  datatype Params = Params(host: string, port: int, database: string, username: string, password: string)

  predicate PortFits(p: Params) {
    -0x8000_0000_0000_0000 <= p.port < 0x8000_0000_0000_0000
  }

  // ---------------------------------------------------------------- printing

  function MongoAuth(p: Params): string {
    if p.username != "" then
      if p.password != "" then Escape(Plugin, p.username) + ":" + Escape(Plugin, p.password) + "@"
      else Escape(Plugin, p.username) + "@"
    else ""
  }

  function MongoPort(p: Params): int {
    if p.port == 0 then 27017 else p.port
  }

  function MongoUri(p: Params): string {
    "mongodb" + "://" + (MongoAuth(p) + (p.host + (":" + Decimal(MongoPort(p)))) + "/?authSource=admin")
  }

  function RedisDb(p: Params, database: string): int {
    var text := if database != "" then database else p.database;
    var n := ParseI64(text);
    if n.Some? then n.value else 0
  }

  function RedisAuth(p: Params): string {
    if p.password != "" then
      if p.username != "" then Escape(Plugin, p.username) + ":" + Escape(Plugin, p.password) + "@"
      else ":" + Escape(Plugin, p.password) + "@"
    else ""
  }

  function RedisPort(p: Params): int {
    if p.port == 0 then 6379 else p.port
  }

  function RedisUrl(p: Params, database: string): string {
    "redis" + "://" + (RedisAuth(p) + (p.host + (":" + Decimal(RedisPort(p)))) + ("/" + Decimal(RedisDb(p, database))))
  }

  // ---------------------------------------------------------------- meaning

  /** Who a URI logs in as, and where. */
  datatype Target = Target(username: string, password: string, host: string, port: int)

  function MongoTarget(p: Params): Target {
    Target(p.username, if p.username == "" then "" else p.password, p.host, MongoPort(p))
  }

  function RedisTarget(p: Params): Target {
    Target(if p.password == "" then "" else p.username, p.password, p.host, RedisPort(p))
  }

  // ---------------------------------------------------------------- user info

  function MongoInfo(p: Params): Option<string> {
    if p.username == "" then None
    else if p.password != "" then Some(Escape(Plugin, p.username) + ":" + Escape(Plugin, p.password))
    else Some(Escape(Plugin, p.username))
  }

  function RedisInfo(p: Params): Option<string> {
    if p.password == "" then None else Some(Escape(Plugin, p.username) + ":" + Escape(Plugin, p.password))
  }

  /** User info without '/', '?', '#' or '@', that reads as the login. */
  ghost predicate InfoOk(info: Option<string>, user: string, password: string) {
    if info.Some? then Within(info.value) && '@' !in info.value && LoginIs(info.value, user, password)
    else user == "" && password == ""
  }

  lemma EscapeNoAt(s: string)
    ensures '@' !in Escape(Plugin, s)
  {
    EscapeIsBare(Plugin, s);
  }

  lemma MongoInfoOk(p: Params)
    ensures MongoAuth(p) == WithAt(MongoInfo(p))
    ensures InfoOk(MongoInfo(p), MongoTarget(p).username, MongoTarget(p).password)
  {
    if p.username != "" {
      LoginBack(Plugin, p.username, p.password);
      UserBack(Plugin, p.username);
      EscapeNoAt(p.username);
      EscapeNoAt(p.password);
    }
  }

  lemma RedisInfoOk(p: Params)
    ensures RedisAuth(p) == WithAt(RedisInfo(p))
    ensures InfoOk(RedisInfo(p), RedisTarget(p).username, RedisTarget(p).password)
  {
    if p.password != "" {
      LoginBack(Plugin, p.username, p.password);
      EscapeNoAt(p.username);
      EscapeNoAt(p.password);
      assert Escape(Plugin, "") == "";
      assert "" + ":" + Escape(Plugin, p.password) == ":" + Escape(Plugin, p.password);
    }
  }

  // ---------------------------------------------------------------- Redis

  function TargetOf(url: Url): Option<Target> {
    var user, password := Unescape(url.username), Unescape(url.password);
    if url.hostname == "" || user.None? || password.None? || url.port.None? then None
    else Some(Target(user.value, password.value, url.hostname, url.port.value))
  }

  function RedisOf(url: Option<Url>): Option<(Target, int)> {
    if url.None? || url.value.pathname == "" then None
    else
      var target, db := TargetOf(url.value), ParseI64(url.value.pathname[1..]);
      if target.None? || db.None? then None else Some((target.value, db.value))
  }

  /** The Redis driver's reading: the URL Standard's parser, percent-decoding, and the path as a
      number. */
  function ReadRedis(uri: string): Option<(Target, int)> {
    RedisOf(ParseUrl(uri))
  }

  lemma DatabaseBack(db: int)
    requires -0x8000_0000_0000_0000 <= db < 0x8000_0000_0000_0000
    ensures ParsePath("/" + Decimal(db)) == "/" + Decimal(db) && ParseI64(("/" + Decimal(db))[1..]) == Some(db)
  {
    var s := Decimal(db);
    DecimalBack(db);
    EscapePlain(Plugin, s);
    EscapeIsBare(Plugin, s);
    assert s[0] in s;
    PathBack(s);
    assert ("/" + s)[1..] == s;
  }

  lemma PartsRead(url: Url, user: string, password: string, port: nat, db: int)
    requires url.hostname != "" && url.port == Some(port)
    requires Unescape(url.username) == Some(user) && Unescape(url.password) == Some(password)
    requires url.pathname != "" && ParseI64(url.pathname[1..]) == Some(db)
    ensures RedisOf(Some(url)) == Some((Target(user, password, url.hostname, port), db))
  {
  }

  lemma LoginRead(info: Option<string>, user: string, password: string)
    requires InfoOk(info, user, password)
    ensures Unescape(LoginOf(info).0) == Some(user) && Unescape(LoginOf(info).1) == Some(password)
  {
    assert Unescape("") == Some("");
  }

  /** What is read of the parts of a URL. */
  lemma UrlPartsRead(
    info: Option<string>, user: string, password: string, host: string, port: nat, db: int, path: string)
    requires host != "" && InfoOk(info, user, password)
    requires path != "" && ParseI64(path[1..]) == Some(db)
    ensures
      RedisOf(UrlOfParts("redis", info, host, Some(port), path))
      == if Place(host, Some(port)).None? then None
         else Some((Target(user, password, ParseHost(host).value, port), db))
  {
    var url := UrlOfParts("redis", info, host, Some(port), path);
    if url.Some? {
      ParsedNonempty(host);
      LoginRead(info, user, password);
      PartsRead(url.value, user, password, port, db);
    }
  }

  lemma RedisReads(info: Option<string>, user: string, password: string, host: string, port: nat, db: int, path: string)
    requires OneHost(host) && InfoOk(info, user, password)
    requires path != "" && path[0] == '/' && ParsePath(path) == path && ParseI64(path[1..]) == Some(db)
    ensures
      ReadRedis("redis" + "://" + (Printed(info, host, Some(port)) + path))
      == if Place(host, Some(port)).None? then None
         else Some((Target(user, password, ParseHost(host).value, port), db))
  {
    UrlBack("redis", info, host, Some(port), path);
    UrlPartsRead(info, user, password, host, port, db, path);
  }

  lemma RedisOfFine(url: Option<Url>)
    requires url.Some? ==> Fine(url.value)
    ensures RedisOf(url).Some? ==> OneHost(RedisOf(url).value.0.host) && 0 <= RedisOf(url).value.0.port <= 65535
  {
  }

  /** A URL whose host is one host. */
  lemma RedisUrlReads(p: Params, database: string, port: nat)
    requires OneHost(p.host) && port == RedisPort(p)
    ensures
      ReadRedis(RedisUrl(p, database))
      == if Place(p.host, Some(port)).None? then None
         else Some((Target(RedisTarget(p).username, RedisTarget(p).password, ParseHost(p.host).value, port),
           RedisDb(p, database)))
  {
    var t, db := RedisTarget(p), RedisDb(p, database);
    RedisInfoOk(p);
    DatabaseBack(db);
    RedisReads(RedisInfo(p), t.username, t.password, p.host, port, db, "/" + Decimal(db));
  }

  /** A Redis URL reads back as what it was built from exactly when the host is one the parser
      takes over and the port is one of a socket. */
  lemma RedisRoundTrip(p: Params, database: string)
    ensures
      ReadRedis(RedisUrl(p, database)) == Some((RedisTarget(p), RedisDb(p, database)))
      <==> HostKept(p.host) && 0 <= RedisPort(p) <= 65535
  {
    HostKeptIff(p.host);
    ParsedHostIsOne(p.host);
    if OneHost(p.host) && 0 <= RedisPort(p) {
      RedisUrlReads(p, database, RedisPort(p));
    } else {
      ParsedUrl(RedisUrl(p, database));
      RedisOfFine(ParseUrl(RedisUrl(p, database)));
    }
  }

  // ---------------------------------------------------------------- Mongo

  datatype Server = Server(host: string, port: int)

  datatype Deployment = Deployment(username: string, password: string, servers: seq<Server>)

  function ReadServer(s: string): Option<Server> {
    var colon := First(s, ':');
    var host := if colon.Some? then s[..colon.value] else s;
    var port := if colon.Some? then s[colon.value + 1..] else "27017";
    if host == "" || !AllDigits(port) || !(1 <= Number(port) <= 65535) then None
    else Some(Server(host, Number(port)))
  }

  function ReadServers(fields: seq<string>): Option<seq<Server>> {
    if fields == [] then Some([])
    else
      var head, tail := ReadServer(fields[0]), ReadServers(fields[1..]);
      if head.None? || tail.None? then None else Some([head.value] + tail.value)
  }

  function HostsOf(a: string): string {
    var at := Last(a, '@');
    if at.Some? then a[at.value + 1..] else a
  }

  /** The last '@' ends the user info, and ',' separates the servers. */
  function ReadDeployment(a: string): Option<Deployment> {
    var at := Last(a, '@');
    var login := if at.Some? then UserInfo(a[..at.value]) else ("", "");
    var user, password := Unescape(login.0), Unescape(login.1);
    var servers := ReadServers(Fields(HostsOf(a), ','));
    if user.None? || password.None? || servers.None? then None
    else Some(Deployment(user.value, password.value, servers.value))
  }

  /** The Mongo driver's reading, as the MongoDB Connection String Specification has it: user info
      and servers come before the first '/'. */
  function ReadMongo(uri: string): Option<Deployment> {
    if !("mongodb://" <= uri) then None
    else
      var rest := uri[10..];
      var slash := First(rest, '/');
      ReadDeployment(if slash.Some? then rest[..slash.value] else rest)
  }

  /** A name that the driver reads as one server. */
  predicate MongoHost(s: string) {
    s != "" && '/' !in s && '@' !in s && ',' !in s && ':' !in s
  }

  ghost predicate ServersFine(servers: seq<Server>) {
    forall k :: 0 <= k < |servers| ==> MongoHost(servers[k].host) && 1 <= servers[k].port <= 65535
  }

  lemma ServerFine(s: string)
    requires '/' !in s && '@' !in s && ',' !in s && ReadServer(s).Some?
    ensures MongoHost(ReadServer(s).value.host) && 1 <= ReadServer(s).value.port <= 65535
  {
    FirstClear(s, ':');
  }

  lemma {:induction false} ReadServersFine(fields: seq<string>)
    requires forall f :: f in fields ==> '/' !in f && '@' !in f && ',' !in f
    ensures ReadServers(fields).Some? ==> ServersFine(ReadServers(fields).value)
  {
    if fields != [] {
      ReadServersFine(fields[1..]);
      if ReadServer(fields[0]).Some? {
        ServerFine(fields[0]);
      }
    }
  }

  lemma HostsFine(hosts: string)
    requires '/' !in hosts && '@' !in hosts
    ensures ReadServers(Fields(hosts, ',')).Some? ==> ServersFine(ReadServers(Fields(hosts, ',')).value)
  {
    forall f | f in Fields(hosts, ',') ensures '/' !in f && '@' !in f && ',' !in f {
      FieldsClear(hosts, ',', f);
    }
    ReadServersFine(Fields(hosts, ','));
  }

  lemma HostsClear(a: string)
    requires '/' !in a
    ensures '/' !in HostsOf(a) && '@' !in HostsOf(a)
  {
    LastClear(a, '@');
  }

  lemma DeploymentFine(a: string)
    requires '/' !in a
    ensures ReadDeployment(a).Some? ==> ServersFine(ReadDeployment(a).value.servers)
  {
    HostsClear(a);
    HostsFine(HostsOf(a));
  }

  /** Whatever the URI, the servers read are ones that would be read again. */
  lemma MongoFine(uri: string)
    ensures ReadMongo(uri).Some? ==> ServersFine(ReadMongo(uri).value.servers)
  {
    if "mongodb://" <= uri {
      var rest := uri[10..];
      FirstClear(rest, '/');
      var slash := First(rest, '/');
      DeploymentFine(if slash.Some? then rest[..slash.value] else rest);
    }
  }

  lemma CutsAtSlash(a: string, path: string)
    requires '/' !in a && path != "" && path[0] == '/'
    ensures ReadMongo("mongodb" + "://" + (a + path)) == ReadDeployment(a)
  {
    var uri := "mongodb" + "://" + (a + path);
    assert "mongodb" + "://" == "mongodb://";
    assert uri[..10] == "mongodb://" && uri[10..] == a + path;
    FirstAt(a, '/', path[1..]);
    assert a + ['/'] + path[1..] == a + path;
    assert (a + path)[..|a|] == a;
  }

  lemma HostsBehindAt(info: Option<string>, user: string, password: string, hosts: string)
    requires InfoOk(info, user, password) && '@' !in hosts
    ensures
      var servers := ReadServers(Fields(hosts, ','));
      ReadDeployment(WithAt(info) + hosts)
      == if servers.None? then None else Some(Deployment(user, password, servers.value))
  {
    assert Unescape("") == Some("");
    if info.Some? {
      LastAt(info.value, '@', hosts);
      var a := info.value + "@" + hosts;
      assert a[..|info.value|] == info.value && a[|info.value| + 1..] == hosts;
    } else {
      LastNone(hosts, '@');
      assert "" + hosts == hosts;
    }
  }

  lemma NoSlash(info: Option<string>, user: string, password: string, hosts: string)
    requires InfoOk(info, user, password) && '/' !in hosts
    ensures '/' !in WithAt(info) + hosts
  {
  }

  lemma AuthorityRead(info: Option<string>, user: string, password: string, hosts: string, path: string)
    requires InfoOk(info, user, password) && '/' !in hosts && '@' !in hosts && path != "" && path[0] == '/'
    ensures
      var servers := ReadServers(Fields(hosts, ','));
      ReadMongo("mongodb" + "://" + (WithAt(info) + hosts + path))
      == if servers.None? then None else Some(Deployment(user, password, servers.value))
  {
    NoSlash(info, user, password, hosts);
    CutsAtSlash(WithAt(info) + hosts, path);
    HostsBehindAt(info, user, password, hosts);
  }

  lemma HostsBare(host: string, port: int, hosts: string)
    requires -0x8000_0000_0000_0000 <= port < 0x8000_0000_0000_0000
    requires hosts == host + (":" + Decimal(port)) && '/' !in host && '@' !in host
    ensures '/' !in hosts && '@' !in hosts
  {
    DecimalBack(port);
  }

  /** What is read of a URI whose hosts have neither '/' nor '@'. */
  lemma MongoReads(p: Params, hosts: string)
    requires hosts == p.host + (":" + Decimal(MongoPort(p))) && PortFits(p) && '/' !in p.host && '@' !in p.host
    ensures
      var servers := ReadServers(Fields(hosts, ','));
      ReadMongo(MongoUri(p))
      == if servers.None? then None
         else Some(Deployment(MongoTarget(p).username, MongoTarget(p).password, servers.value))
  {
    MongoInfoOk(p);
    HostsBare(p.host, MongoPort(p), hosts);
    AuthorityRead(MongoInfo(p), MongoTarget(p).username, MongoTarget(p).password, hosts, "/?authSource=admin");
  }

  lemma ServerBack(host: string, port: nat)
    requires MongoHost(host)
    ensures ReadServer(host + (":" + Digits(port))) == if 1 <= port <= 65535 then Some(Server(host, port)) else None
    ensures ReadServer(host) == Some(Server(host, 27017))
  {
    NumberBack(port);
    PortRead(host, Digits(port));
    BareServer(host);
  }

  lemma PortRead(host: string, port: string)
    requires MongoHost(host) && AllDigits(port)
    ensures
      ReadServer(host + (":" + port)) == if 1 <= Number(port) <= 65535 then Some(Server(host, Number(port))) else None
  {
    var s := host + (":" + port);
    FirstAt(host, ':', port);
    assert s == host + [':'] + port;
    assert s[..|host|] == host && s[|host| + 1..] == port;
  }

  lemma BareServer(host: string)
    requires MongoHost(host)
    ensures ReadServer(host) == Some(Server(host, 27017))
  {
    FirstNone(host, ':');
    DefaultPortBack();
  }

  lemma DefaultPortBack()
    ensures AllDigits("27017") && Number("27017") == 27017
  {
    NumberBack(27017);
    assert Digits(27017) == "27017";
  }

  lemma MoreServers(h: string, rest: seq<string>)
    ensures
      var head, tail := ReadServer(h), ReadServers(rest);
      ReadServers([h] + rest) == if head.None? || tail.None? then None else Some([head.value] + tail.value)
  {
    assert ([h] + rest)[1..] == rest;
  }

  lemma OneServerRead(s: string)
    ensures ReadServers([s]) == if ReadServer(s).None? then None else Some([ReadServer(s).value])
  {
    MoreServers(s, []);
    assert [s] + [] == [s];
    if ReadServer(s).Some? {
      assert [ReadServer(s).value] + [] == [ReadServer(s).value];
    }
  }

  lemma OneField(s: string)
    requires ',' !in s
    ensures Fields(s, ',') == [s]
  {
    FirstNone(s, ',');
  }

  /** The form means one server. */
  function OneServer(p: Params): Deployment {
    Deployment(MongoTarget(p).username, MongoTarget(p).password, [Server(p.host, MongoPort(p))])
  }

  /** A Mongo URI reads back as the one server it was built for exactly when its host has none of
      the separators and the port is one of a socket. */
  lemma MongoRoundTrip(p: Params)
    requires PortFits(p)
    ensures ReadMongo(MongoUri(p)) == Some(OneServer(p)) <==> MongoHost(p.host) && 1 <= MongoPort(p) <= 65535
  {
    if MongoHost(p.host) && 1 <= MongoPort(p) <= 65535 {
      var hosts := p.host + (":" + Digits(MongoPort(p)));
      MongoReads(p, hosts);
      OneField(hosts);
      OneServerRead(hosts);
      ServerBack(p.host, MongoPort(p));
    } else {
      MongoFine(MongoUri(p));
      assert OneServer(p).servers[0] == Server(p.host, MongoPort(p));
    }
  }

  lemma TwoFields(h: string, s: string)
    requires ',' !in h && ',' !in s
    ensures Fields(h + ("," + s), ',') == [h, s]
  {
    var all := h + ("," + s);
    FirstAt(h, ',', s);
    FirstNone(s, ',');
    assert all == h + [','] + s;
    assert all[..|h|] == h && all[|h| + 1..] == s;
    assert Fields(all, ',') == [h] + Fields(s, ',');
  }

  lemma TwoServers(h: string, s: string)
    ensures
      ReadServers([h, s])
      == if ReadServer(h).None? || ReadServer(s).None? then None
         else Some([ReadServer(h).value, ReadServer(s).value])
  {
    MoreServers(h, [s]);
    OneServerRead(s);
    assert [h] + [s] == [h, s];
    if ReadServer(h).Some? && ReadServer(s).Some? {
      assert [ReadServer(h).value] + [ReadServer(s).value] == [ReadServer(h).value, ReadServer(s).value];
    }
  }

  /** Two names in the host are two servers, and the port goes to the last one only. */
  lemma MongoListRead(p: Params, h: string, k: string)
    requires p.host == h + "," + k && MongoHost(h) && MongoHost(k) && PortFits(p) && 1 <= MongoPort(p) <= 65535
    ensures
      ReadMongo(MongoUri(p))
      == Some(Deployment(MongoTarget(p).username, MongoTarget(p).password, [Server(h, 27017), Server(k, MongoPort(p))]))
  {
    var last := k + (":" + Digits(MongoPort(p)));
    var hosts := p.host + (":" + Digits(MongoPort(p)));
    assert hosts == h + ("," + last);
    MongoReads(p, hosts);
    TwoFields(h, last);
    TwoServers(h, last);
    ServerBack(h, 1);
    ServerBack(k, MongoPort(p));
  }

  /** Database and options of a URI, from what follows the first '/' behind the scheme. */
  function ReadOptions(uri: string): Option<(string, seq<string>)> {
    if !("mongodb://" <= uri) then None
    else
      var slash := First(uri[10..], '/');
      if slash.None? then Some(("", []))
      else
        var tail := uri[10..][slash.value + 1..];
        var mark := First(tail, '?');
        if mark.None? then Some((tail, []))
        else Some((tail[..mark.value], Fields(tail[mark.value + 1..], '&')))
  }

  lemma AskedFor(tail: string, option: string)
    requires tail == "?" + option && '&' !in option
    ensures
      var mark := First(tail, '?');
      mark == Some(0) && tail[..0] == "" && Fields(tail[1..], '&') == [option]
  {
    FirstAt("", '?', option);
    assert "" + ['?'] + option == tail;
    assert tail[1..] == option;
    FirstNone(option, '&');
  }

  lemma OptionsRead(a: string, path: string, option: string)
    requires '/' !in a && '&' !in option && path == "/?" + option
    ensures ReadOptions("mongodb" + "://" + (a + path)) == Some(("", [option]))
  {
    var uri := "mongodb" + "://" + (a + path);
    assert "mongodb" + "://" == "mongodb://";
    assert uri[..10] == "mongodb://" && uri[10..] == a + path;
    FirstAt(a, '/', path[1..]);
    assert a + ['/'] + path[1..] == a + path;
    assert (a + path)[|a| + 1..] == path[1..] && path[1..] == "?" + option;
    AskedFor(path[1..], option);
  }

  lemma AdminOption()
    ensures "/?authSource=admin" == "/?" + "authSource=admin" && '&' !in "authSource=admin"
  {
  }

  lemma AuthorityNoSlash(p: Params, a: string)
    requires PortFits(p) && '/' !in p.host && a == MongoAuth(p) + (p.host + (":" + Decimal(MongoPort(p))))
    ensures '/' !in a
  {
    MongoInfoOk(p);
    DecimalBack(MongoPort(p));
    NoSlash(MongoInfo(p), MongoTarget(p).username, MongoTarget(p).password, p.host + (":" + Decimal(MongoPort(p))));
  }

  /** Whatever the parameters, the URI names no database and asks for the admin database to log in
      against. */
  lemma MongoOptions(p: Params)
    requires PortFits(p) && '/' !in p.host
    ensures ReadOptions(MongoUri(p)) == Some(("", ["authSource=admin"]))
  {
    var a := MongoAuth(p) + (p.host + (":" + Decimal(MongoPort(p))));
    AuthorityNoSlash(p, a);
    AdminOption();
    OptionsRead(a, "/?authSource=admin", "authSource=admin");
  }

  // ---------------------------------------------------------------- in terms of the parameters

  /** What a Mongo URI says: the user name, and the password if there is a user name; the host; and
      the port, or 27017 if that is 0. */
  lemma MongoUriMeans(p: Params, port: nat)
    requires PortFits(p) && (p.port == port != 0 || (p.port == 0 && port == 27017))
    ensures
      ReadMongo(MongoUri(p))
      == Some(Deployment(p.username, if p.username == "" then "" else p.password, [Server(p.host, port)]))
      <==> MongoHost(p.host) && port <= 65535
  {
    MongoRoundTrip(p);
  }

  /** What a Redis URL says: the password, and the user name if there is a password; host and port,
      which is 6379 if it is 0; and the number of the database. */
  lemma RedisUrlMeans(p: Params, database: string, port: nat, n: int)
    requires PortFits(p) && (p.port == port != 0 || (p.port == 0 && port == 6379))
    requires MeansDb(if database != "" then database else p.database, n)
    ensures
      ReadRedis(RedisUrl(p, database))
      == Some((Target(if p.password == "" then "" else p.username, p.password, p.host, port), n))
      <==> HostKept(p.host) && port <= 65535
  {
    RedisDbMeans(p, database, n);
    RedisRoundTrip(p, database);
  }

  /** The text is a number of 64 bits, or holds something that keeps it from being one. */
  ghost predicate MeansDb(text: string, n: int) {
    || (text == Decimal(n) && -0x8000_0000_0000_0000 <= n < 0x8000_0000_0000_0000)
    || (n == 0 && text == "")
    || (n == 0 && exists k :: 0 <= k < |text| && !IsDigit(text[k]) && (k > 0 || text[k] !in {'+', '-'}))
  }

  /** The database asked for, or else that of the form; and 0 where that is no number. */
  lemma RedisDbMeans(p: Params, database: string, n: int)
    requires MeansDb(if database != "" then database else p.database, n)
    ensures RedisDb(p, database) == n
  {
    var text := if database != "" then database else p.database;
    if text == Decimal(n) && -0x8000_0000_0000_0000 <= n < 0x8000_0000_0000_0000 {
      DecimalBack(n);
    } else if text == "" {
      NoNumber(text, 0);
    } else {
      var k :| 0 <= k < |text| && !IsDigit(text[k]) && (k > 0 || text[k] !in {'+', '-'});
      NoNumber(text, k);
    }
  }

  // ---------------------------------------------------------------- equal URIs

  lemma SameHead(a: string, b: string, suffix: string)
    requires a + suffix == b + suffix
    ensures a == b
  {
    assert (a + suffix)[..|a|] == a && (b + suffix)[..|b|] == b;
  }

  lemma LastCuts(a: string, x: string, b: string, y: string, c: char)
    requires c !in x && c !in y
    ensures a + ([c] + x) == b + ([c] + y) <==> a == b && x == y
  {
    LastAt(a, c, x);
    LastAt(b, c, y);
    assert a + [c] + x == a + ([c] + x) && b + [c] + y == b + ([c] + y);
    if a + ([c] + x) == b + ([c] + y) {
      assert (a + [c] + x)[..|a|] == a && (b + [c] + y)[..|b|] == b;
      SameTail(a + [c], x, y);
    }
  }

  /** Text before the last separator, and a number behind it, can be told apart. */
  lemma NumbersBehind(a: string, m: int, b: string, n: int, c: char)
    requires -0x8000_0000_0000_0000 <= m < 0x8000_0000_0000_0000 && -0x8000_0000_0000_0000 <= n < 0x8000_0000_0000_0000
    requires !IsDigit(c) && c != '-'
    ensures a + ([c] + Decimal(m)) == b + ([c] + Decimal(n)) <==> a == b && m == n
  {
    DecimalBack(m);
    DecimalBack(n);
    LastCuts(a, Decimal(m), b, Decimal(n), c);
  }

  /** User info and host, printed without user info as a host that begins with it. */
  predicate Taken(a: Option<string>, h: string, b: Option<string>, k: string) {
    a.Some? && b.None? && k == WithAt(a) + h
  }

  lemma AtSplits(a: string, h: string, b: string, k: string)
    requires '@' !in a && '@' !in b
    ensures a + "@" + h == b + "@" + k <==> a == b && h == k
  {
    FirstAt(a, '@', h);
    FirstAt(b, '@', k);
    if a + "@" + h == b + "@" + k {
      assert (a + "@" + h)[..|a|] == a && (b + "@" + k)[..|b|] == b;
      SameTail(a + "@", h, k);
    }
  }

  lemma LoginsApart(a: Option<string>, h: string, b: Option<string>, k: string)
    requires a.Some? ==> '@' !in a.value
    requires b.Some? ==> '@' !in b.value
    ensures WithAt(a) + h == WithAt(b) + k <==> (a == b && h == k) || Taken(a, h, b, k) || Taken(b, k, a, h)
  {
    assert "" + h == h && "" + k == k;
    if a.Some? && b.Some? {
      AtSplits(a.value, h, b.value, k);
    }
  }

  lemma Grouped(x: string, y: string, z: string)
    ensures x + (y + z) == x + y + z
  {
  }

  lemma AuthoritiesEqualIff(a: Option<string>, h: string, m: int, b: Option<string>, k: string, n: int)
    requires -0x8000_0000_0000_0000 <= m < 0x8000_0000_0000_0000 && -0x8000_0000_0000_0000 <= n < 0x8000_0000_0000_0000
    requires a.Some? ==> '@' !in a.value
    requires b.Some? ==> '@' !in b.value
    ensures
      WithAt(a) + (h + (":" + Decimal(m))) == WithAt(b) + (k + (":" + Decimal(n)))
      <==> m == n && ((a == b && h == k) || Taken(a, h, b, k) || Taken(b, k, a, h))
  {
    Grouped(WithAt(a), h, ":" + Decimal(m));
    Grouped(WithAt(b), k, ":" + Decimal(n));
    NumbersBehind(WithAt(a) + h, m, WithAt(b) + k, n, ':');
    LoginsApart(a, h, b, k);
  }

  /** `q` carries no user info, and its host reads as the user info and host of `p`. */
  predicate MongoSpells(p: Params, q: Params) {
    p.username != "" && q.username == "" && q.host == MongoAuth(p) + p.host && MongoPort(p) == MongoPort(q)
  }

  lemma MongoInfoIff(p: Params, q: Params)
    ensures MongoInfo(p) == MongoInfo(q)
      <==> MongoTarget(p).username == MongoTarget(q).username && MongoTarget(p).password == MongoTarget(q).password
  {
    MongoInfoOk(p);
    MongoInfoOk(q);
    if p.username != "" {
      EscapeIsBare(Plugin, p.username);
    }
  }

  /** Two Mongo URIs are equal exactly when they mean the same login on the same server, or the
      host of one spells out the user info and host of the other. */
  lemma MongoUrisEqualIff(p: Params, q: Params)
    requires PortFits(p) && PortFits(q)
    ensures MongoUri(p) == MongoUri(q) <==> MongoTarget(p) == MongoTarget(q) || MongoSpells(p, q) || MongoSpells(q, p)
  {
    MongoInfoOk(p);
    MongoInfoOk(q);
    MongoInfoIff(p, q);
    var a := MongoAuth(p) + (p.host + (":" + Decimal(MongoPort(p))));
    var b := MongoAuth(q) + (q.host + (":" + Decimal(MongoPort(q))));
    AuthoritiesEqualIff(MongoInfo(p), p.host, MongoPort(p), MongoInfo(q), q.host, MongoPort(q));
    if MongoUri(p) == MongoUri(q) {
      SameTail("mongodb" + "://", a + "/?authSource=admin", b + "/?authSource=admin");
      SameHead(a, b, "/?authSource=admin");
    }
  }

  predicate RedisSpells(p: Params, q: Params) {
    p.password != "" && q.password == "" && q.host == RedisAuth(p) + p.host && RedisPort(p) == RedisPort(q)
  }

  lemma RedisInfoIff(p: Params, q: Params)
    ensures RedisInfo(p) == RedisInfo(q)
      <==> RedisTarget(p).username == RedisTarget(q).username && RedisTarget(p).password == RedisTarget(q).password
  {
    RedisInfoOk(p);
    RedisInfoOk(q);
  }

  /** Likewise for Redis, with the database. */
  lemma RedisUrlsEqualIff(p: Params, dbp: string, q: Params, dbq: string)
    requires PortFits(p) && PortFits(q)
    ensures
      RedisUrl(p, dbp) == RedisUrl(q, dbq)
      <==> RedisDb(p, dbp) == RedisDb(q, dbq)
           && (RedisTarget(p) == RedisTarget(q) || RedisSpells(p, q) || RedisSpells(q, p))
  {
    RedisInfoOk(p);
    RedisInfoOk(q);
    RedisInfoIff(p, q);
    var a := RedisAuth(p) + (p.host + (":" + Decimal(RedisPort(p))));
    var b := RedisAuth(q) + (q.host + (":" + Decimal(RedisPort(q))));
    AuthoritiesEqualIff(RedisInfo(p), p.host, RedisPort(p), RedisInfo(q), q.host, RedisPort(q));
    NumbersBehind(a, RedisDb(p, dbp), b, RedisDb(q, dbq), '/');
    if RedisUrl(p, dbp) == RedisUrl(q, dbq) {
      SameTail("redis" + "://", a + ("/" + Decimal(RedisDb(p, dbp))), b + ("/" + Decimal(RedisDb(q, dbq))));
    }
  }

  lemma HasAt(info: Option<string>, host: string)
    ensures info.Some? ==> '@' in WithAt(info) + host
  {
    if info.Some? {
      assert (WithAt(info) + host)[|info.value|] == '@';
    }
  }

  /** Hosts without '@': equal URIs mean the same login on the same server. */
  lemma MongoUriIsUnique(p: Params, q: Params)
    requires PortFits(p) && PortFits(q) && '@' !in p.host && '@' !in q.host
    ensures MongoUri(p) == MongoUri(q) <==> MongoTarget(p) == MongoTarget(q)
  {
    MongoUrisEqualIff(p, q);
    MongoInfoOk(p);
    MongoInfoOk(q);
    HasAt(MongoInfo(p), p.host);
    HasAt(MongoInfo(q), q.host);
  }

  lemma RedisUrlIsUnique(p: Params, dbp: string, q: Params, dbq: string)
    requires PortFits(p) && PortFits(q) && '@' !in p.host && '@' !in q.host
    ensures RedisUrl(p, dbp) == RedisUrl(q, dbq)
      <==> RedisTarget(p) == RedisTarget(q) && RedisDb(p, dbp) == RedisDb(q, dbq)
  {
    RedisUrlsEqualIff(p, dbp, q, dbq);
    RedisInfoOk(p);
    RedisInfoOk(q);
    HasAt(RedisInfo(p), p.host);
    HasAt(RedisInfo(q), q.host);
  }

  /** So every target with a user name shares its URI with one that has none. */
  lemma AtInHostCollides(p: Params)
    requires PortFits(p) && p.username != ""
    ensures
      var q := Params(MongoAuth(p) + p.host, p.port, "", "", "");
      MongoTarget(p) != MongoTarget(q) && MongoUri(p) == MongoUri(q)
  {
    MongoUrisEqualIff(p, Params(MongoAuth(p) + p.host, p.port, "", "", ""));
  }

  // ---------------------------------------------------------------- the client cache

  /** A client, known by the parameters it was opened with. */
  datatype Client = Client(openedWith: Params)

  /** `build_client`: look up under the lock, connect without it, insert under it again unless
      another caller has been faster. */
  class ClientCache {
    var clients: map<string, Client>

    ghost predicate Valid()
      reads this
    {
      forall uri :: uri in clients ==> PortFits(clients[uri].openedWith) && MongoUri(clients[uri].openedWith) == uri
    }

    constructor ()
      ensures Valid() && clients == map[]
    {
      clients := map[];
    }

    /** First critical section.  What it finds logs in where the caller wants to, unless the host
        of one spells out the user info of the other. */
    method Lookup(p: Params) returns (c: Option<Client>)
      requires Valid() && PortFits(p)
      ensures c == if MongoUri(p) in clients then Some(clients[MongoUri(p)]) else None
      ensures c.Some? ==>
        var q := c.value.openedWith;
        MongoTarget(q) == MongoTarget(p) || MongoSpells(p, q) || MongoSpells(q, p)
    {
      var uri := MongoUri(p);
      if uri in clients {
        MongoUrisEqualIff(clients[uri].openedWith, p);
        return Some(clients[uri]);
      }
      return None;
    }

    /** Second critical section, after a connect. */
    method OrInsert(p: Params)
      requires Valid() && PortFits(p)
      modifies this
      ensures Valid()
      ensures clients == if MongoUri(p) in old(clients) then old(clients) else old(clients)[MongoUri(p) := Client(p)]
    {
      var uri := MongoUri(p);
      if uri !in clients {
        clients := clients[uri := Client(p)];
      }
    }
  }
}
