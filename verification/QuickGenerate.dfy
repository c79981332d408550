/** internal/quickdocker/generate.go: one spec becomes a server configuration, a client
  * configuration and a list of published ports. The configurations are the values their YAML
  * text stands for. */
module QuickGenerate {
  import opened Bytes
  import opened HostPort
  import opened QuickSpec
  import Config
  import Handshake
  import Exchange
  import KeyText
  import Backoff
  import ClockSkew
  import Cidr
  import SessionMachine
  import CollisionRuns
  import Deployment

  // ------------------------------------------------------------ sorted names

  /** Go's string order. */
  predicate Less(a: Str, b: Str)
  {
    b != [] && (a == [] || a[0] < b[0] || (a[0] == b[0] && Less(a[1..], b[1..])))
  }

  /** At the first difference the smaller byte decides, and a prefix comes first. */
  lemma {:induction false} LessIff(a: Str, b: Str)
    ensures Less(a, b) <==> exists k :: 0 <= k <= |a| && k < |b| && a[..k] == b[..k] && (k == |a| || a[k] < b[k])
  {
    if a != [] && b != [] {
      LessIff(a[1..], b[1..]);
      if Less(a, b) {
        if a[0] < b[0] {
          assert a[..0] == b[..0];
        } else {
          var k :| 0 <= k <= |a[1..]| && k < |b[1..]| && a[1..][..k] == b[1..][..k] && (k == |a[1..]| || a[1..][k] < b[1..][k]);
          assert a[..k + 1] == [a[0]] + a[1..][..k] && b[..k + 1] == [b[0]] + b[1..][..k];
        }
      }
      if k :| 0 <= k <= |a| && k < |b| && a[..k] == b[..k] && (k == |a| || a[k] < b[k]) {
        if k > 0 {
          assert a[0] == a[..k][0] && b[0] == b[..k][0];
          assert a[1..][..k - 1] == a[..k][1..] && b[1..][..k - 1] == b[..k][1..];
        }
      }
    } else if b != [] {
      assert a[..0] == b[..0];
    }
  }

  lemma {:induction false} LessTotal(a: Str, b: Str)
    ensures Less(a, b) || Less(b, a) || a == b
  {
    if a != [] && b != [] && a[0] == b[0] {
      LessTotal(a[1..], b[1..]);
      assert a == [a[0]] + a[1..] && b == [b[0]] + b[1..];
    }
  }

  lemma {:induction false} LessTransitive(a: Str, b: Str, c: Str)
    requires Less(a, b) && Less(b, c)
    ensures Less(a, c)
  {
    if a != [] && a[0] == b[0] == c[0] {
      LessTransitive(a[1..], b[1..], c[1..]);
    }
  }

  lemma {:induction false} LessIrreflexive(a: Str)
    ensures !Less(a, a)
  {
    if a != [] {
      LessIrreflexive(a[1..]);
    }
  }

  ghost predicate Ascending(s: seq<Str>)
  {
    forall i, j :: 0 <= i < j < |s| ==> Less(s[i], s[j])
  }

  /** The names are the keys of the map, each once, in ascending order. */
  ghost predicate Enumerates(names: seq<Str>, keys: set<Str>)
  {
    Ascending(names) && forall n :: n in names <==> n in keys
  }

  lemma AscendingNoDup(s: seq<Str>)
    requires Ascending(s)
    ensures NoDup(s)
  {
    forall i, j | 0 <= i < j < |s| ensures s[i] != s[j] {
      LessIrreflexive(s[i]);
    }
  }

  /** The head of an enumeration is below every other key. */
  lemma HeadIsLeast(names: seq<Str>, n: Str)
    requires Ascending(names) && n in names
    ensures n == names[0] || Less(names[0], n)
  {}

  /** Whatever order the map was visited in, only one sequence can come out. */
  lemma {:induction false} EnumerationIsUnique(a: seq<Str>, b: seq<Str>, keys: set<Str>)
    requires Enumerates(a, keys) && Enumerates(b, keys)
    ensures a == b
    decreases |a|
  {
    if a != [] && b != [] {
      assert a[0] in b && b[0] in a;
      HeadIsLeast(a, b[0]);
      HeadIsLeast(b, a[0]);
      if a[0] != b[0] {
        LessTransitive(a[0], b[0], a[0]);
        LessIrreflexive(a[0]);
      }
      TailEnumerates(a, keys);
      TailEnumerates(b, keys);
      EnumerationIsUnique(a[1..], b[1..], keys - {a[0]});
      assert a == [a[0]] + a[1..] && b == [b[0]] + b[1..];
    } else {
      SameSizeIfEmpty(a, b, keys);
    }
  }

  lemma SameSizeIfEmpty(a: seq<Str>, b: seq<Str>, keys: set<Str>)
    requires Enumerates(a, keys) && Enumerates(b, keys)
    ensures a == [] <==> b == []
  {
    assert a != [] ==> a[0] in a;
    assert b != [] ==> b[0] in b;
  }

  lemma TailEnumerates(a: seq<Str>, keys: set<Str>)
    requires a != [] && Enumerates(a, keys)
    ensures Enumerates(a[1..], keys - {a[0]})
  {
    AscendingNoDup(a);
    forall n ensures n in a[1..] <==> n in keys - {a[0]} {
      assert n in a <==> n == a[0] || n in a[1..];
    }
  }

  function Inserted(s: seq<Str>, x: Str): (r: seq<Str>)
    ensures forall n :: n in r <==> n in s || n == x
  {
    if s == [] then [x]
    else if Less(x, s[0]) then [x] + s
    else
      var r := [s[0]] + Inserted(s[1..], x);
      assert forall n :: n in s <==> n == s[0] || n in s[1..];
      r
  }

  lemma {:induction false} InsertedAscends(s: seq<Str>, x: Str)
    requires Ascending(s) && x !in s
    ensures Ascending(Inserted(s, x))
  {
    if s != [] {
      if Less(x, s[0]) {
        forall j | 0 <= j < |s| ensures Less(x, s[j]) {
          if j > 0 {
            LessTransitive(x, s[0], s[j]);
          }
        }
      } else {
        LessTotal(x, s[0]);
        var rest := Inserted(s[1..], x);
        InsertedAscends(s[1..], x);
        forall j | 0 <= j < |rest| ensures Less(s[0], rest[j]) {
          assert rest[j] in rest;
        }
      }
    }
  }

  /** sortedServiceNames: append the keys in any order, then sort. */
  method SortedServiceNames(services: map<Str, SpecService>) returns (out: seq<Str>)
    ensures Enumerates(out, services.Keys)
  {
    var names: seq<Str> := [];
    var left := services.Keys;
    while left != {}
      invariant left <= services.Keys && NoDup(names)
      invariant forall n :: n in names <==> n in services && n !in left
      decreases |left|
    {
      var name :| name in left;
      names := names + [name];
      left := left - {name};
    }
    out := [];
    for i := 0 to |names|
      invariant Ascending(out)
      invariant forall n :: n in out <==> n in names[..i]
    {
      assert names[i] !in names[..i];
      InsertedAscends(out, names[i]);
      out := Inserted(out, names[i]);
      assert names[..i + 1] == names[..i] + [names[i]];
    }
    assert names[..|names|] == names;
  }

  // ------------------------------------------------------------ addresses

  const ANY_HOST: Str := Lit("0.0.0.0")
  const ANY_HOST_6: Str := Lit("::")

  /** The port SplitHostPort finds; empty when it fails, as the error is ignored. */
  function PortOf(addr: Str): (r: Str)
  {
    if Splits(addr) then SplitHostPort(addr).value.port else []
  }

  function HostOf(addr: Str): (r: Str)
  {
    if Splits(addr) then SplitHostPort(addr).value.host else []
  }

  lemma PartsOfJoined(host: Str, port: Str)
    requires PlainPort(port)
    ensures PlainHost(host) ==> HostOf(host + [COLON] + port) == host && PortOf(host + [COLON] + port) == port
    ensures NoBrackets(host) ==> HostOf(Bracketed(host, port)) == host && PortOf(Bracketed(host, port)) == port
  {
    if PlainHost(host) {
      SplitOfJoin(host, port);
    }
    if NoBrackets(host) {
      SplitOfBracketed(host, port);
    }
  }

  lemma PortOfIsPlain(addr: Str)
    ensures PlainPort(PortOf(addr))
  {
    if Splits(addr) {
      PortIsPlain(addr);
    }
  }

  /** The address a container listens on for a port. */
  function AnyAddress(port: Str): (r: Str)
  {
    ANY_HOST + [COLON] + port
  }

  lemma AnyAddressSplits(port: Str)
    requires PlainPort(port)
    ensures SplitHostPort(AnyAddress(port)) == Some(Split(ANY_HOST, port))
  {
    SplitOfJoin(ANY_HOST, port);
  }

  /** serverListenForService. */
  function ServerListen(spec: Spec, sv: SpecService): (r: Str)
  {
    if spec.serverMode == HOST then sv.server else AnyAddress(PortOf(sv.server))
  }

  /** hostPortMapping. */
  function HostPortMapping(addr: Str): (r: Str)
  {
    var host, port := HostOf(addr), PortOf(addr);
    if host == [] || host == ANY_HOST || host == ANY_HOST_6 then port + [COLON] + port
    else host + [COLON] + port + [COLON] + port
  }

  /** A published port as Docker reads it: the last two fields are ports, the rest is the host
    * address, and no host address means every one. */
  datatype Mapping = Mapping(host: Str, hostPort: Str, containerPort: Str)

  function ReadMapping(text: Str): (r: Option<Mapping>)
  {
    var i := LastIndexOf(text, COLON);
    if i < 0 then None
    else
      var front := text[..i];
      var j := LastIndexOf(front, COLON);
      if j < 0 then Some(Mapping([], front, text[i + 1..]))
      else Some(Mapping(front[..j], front[j + 1..], text[i + 1..]))
  }

  /** The mapping publishes the port of the address, on its host, to the same port of the container. */
  lemma MappingReadsBack(addr: Str)
    ensures var host := if HostOf(addr) == ANY_HOST || HostOf(addr) == ANY_HOST_6 then [] else HostOf(addr);
            ReadMapping(HostPortMapping(addr)) == Some(Mapping(host, PortOf(addr), PortOf(addr)))
  {
    PortOfIsPlain(addr);
    var host, port := HostOf(addr), PortOf(addr);
    if host == [] || host == ANY_HOST || host == ANY_HOST_6 {
      ReadShortMapping(port, port);
    } else {
      ReadLongMapping(host, port, port);
    }
  }

  lemma ReadShortMapping(outer: Str, inner: Str)
    requires PlainPort(outer) && PlainPort(inner)
    ensures ReadMapping(outer + [COLON] + inner) == Some(Mapping([], outer, inner))
  {
    var text := outer + [COLON] + inner;
    assert text[|outer| + 1..] == inner && text[..|outer|] == outer;
    LastIndexAt(text, COLON, |outer|);
  }

  lemma ReadLongMapping(host: Str, outer: Str, inner: Str)
    requires PlainPort(outer) && PlainPort(inner)
    ensures ReadMapping(host + [COLON] + outer + [COLON] + inner) == Some(Mapping(host, outer, inner))
  {
    var front := host + [COLON] + outer;
    var text := front + [COLON] + inner;
    assert text[|front| + 1..] == inner && text[..|front|] == front;
    LastIndexAt(text, COLON, |front|);
    assert front[|host| + 1..] == outer && front[..|host|] == host;
    LastIndexAt(front, COLON, |host|);
  }

  // ------------------------------------------------------------ the configurations

  const SECOND: Int64 := 1_000_000_000
  const GENERATED_LIMITS: Config.Limits := Config.Limits(256, 10 * SECOND, 300 * SECOND, 30 * SECOND)
  const GENERATED_RECONNECT: Backoff.Reconnect := Backoff.Reconnect(SECOND, 60 * SECOND, true)
  const SERVER_CERT: Str := Lit("/etc/passage/server.crt")
  const SERVER_KEY: Str := Lit("/etc/passage/server.key")
  const CLIENT_KEY: Str := Lit("/etc/passage/client.ed25519")
  const CLIENT_PQ_KEY: Str := Lit("/etc/passage/client.mldsa")

  /** The server's entry for each name, in this order. */
  ghost function Entries(spec: Spec, names: seq<Str>): (r: seq<Config.ServiceEntry>)
    requires forall n :: n in names ==> n in spec.services
    ensures |r| == |names|
    ensures forall i :: 0 <= i < |names| ==>
              r[i] == Config.ServiceEntry(names[i], ServerListen(spec, spec.services[names[i]]), [])
  {
    seq(|names|, i requires 0 <= i < |names| =>
      Config.ServiceEntry(names[i], ServerListen(spec, spec.services[names[i]]), []))
  }

  /** c is the server configuration of the spec for a client with these keys. */
  ghost predicate IsServerOf(spec: Spec, edKey: Str, pqKey: Str, c: Config.ServerConfig)
  {
    && c.listen == spec.listen && c.cert == SERVER_CERT && c.key == SERVER_KEY && c.limits == GENERATED_LIMITS
    && |c.clients| == 1
    && var e := c.clients[0];
       && e.id == spec.id
       && e.pubkeys == [KeyText.EncodeKey(KeyText.PUBKEY_PREFIX, edKey)]
       && e.pqPubkeys == [KeyText.EncodeKey(KeyText.PQ_PUBKEY_PREFIX, pqKey)]
       && exists names :: Enumerates(names, spec.services.Keys) && e.services == Entries(spec, names)
  }

  /** renderServerYAML. */
  method ServerConfigOf(spec: Spec, edKey: Str, pqKey: Str) returns (c: Config.ServerConfig)
    ensures IsServerOf(spec, edKey, pqKey, c)
  {
    var names := SortedServiceNames(spec.services);
    var services: seq<Config.ServiceEntry> := [];
    assert forall i :: 0 <= i < |names| ==> names[i] in names;
    for i := 0 to |names|
      invariant |services| == i
      invariant forall k :: 0 <= k < i ==> services[k] == Entries(spec, names)[k]
    {
      services := services + [Config.ServiceEntry(names[i], ServerListen(spec, spec.services[names[i]]), [])];
    }
    assert services == Entries(spec, names);
    var pub := KeyText.EncodeKey(KeyText.PUBKEY_PREFIX, edKey);
    var pqPub := KeyText.EncodeKey(KeyText.PQ_PUBKEY_PREFIX, pqKey);
    c := Config.ServerConfig(spec.listen, SERVER_CERT, SERVER_KEY,
                             [Config.ClientEntry(spec.id, [pub], [pqPub], services)], GENERATED_LIMITS);
  }

  ghost predicate IsClientOf(spec: Spec, digest: Str, c: Config.ClientConfig)
  {
    && c.remote == spec.address && c.id == spec.id && c.reconnect == GENERATED_RECONNECT
    && c.privkeyFile == CLIENT_KEY && c.pqPrivkeyFile == CLIENT_PQ_KEY
    && c.fingerprint == Config.FINGERPRINT_PREFIX + Hex(digest)
    && c.services.Keys == spec.services.Keys
    && forall n :: n in spec.services ==> c.services[n] == spec.services[n].client
  }

  /** renderClientYAML; the certificate's digest is the client's fingerprint. */
  method ClientConfigOf(spec: Spec, digest: Str) returns (c: Config.ClientConfig)
    requires |digest| == 32
    ensures IsClientOf(spec, digest, c)
  {
    var names := SortedServiceNames(spec.services);
    var services: map<Str, Str> := map[];
    for i := 0 to |names|
      invariant forall n :: n in services <==> n in names[..i]
      invariant forall n :: n in services ==> n in spec.services && services[n] == spec.services[n].client
    {
      assert names[..i + 1] == names[..i] + [names[i]];
      services := services[names[i] := spec.services[names[i]].client];
    }
    assert names[..|names|] == names;
    c := Config.ClientConfig(spec.address, Config.FINGERPRINT_PREFIX + Hex(digest), spec.id, CLIENT_KEY, CLIENT_PQ_KEY,
                             services, GENERATED_RECONNECT);
  }

  /** Every valid spec gives a valid client configuration. */
  lemma GeneratedClientValid(spec: Spec, digest: Str, c: Config.ClientConfig)
    requires ValidSpec(spec) && |digest| == 32 && IsClientOf(spec, digest, c)
    ensures Config.ValidClient(c)
  {
    assert c.fingerprint[..7] == Config.FINGERPRINT_PREFIX;
    assert CLIENT_KEY[0] == 47 && CLIENT_PQ_KEY[0] == 47;
    var n :| n in spec.services;
    assert n in c.services;
    forall name | name in c.services ensures name != [] && Splits(c.services[name]) {
      assert ServiceOk(name, spec.services[name]);
    }
  }

  /** The settings that do not come from the spec, in figures: durations in nanoseconds. */
  lemma GeneratedSettings(spec: Spec, edKey: Str, pqKey: Str, digest: Str, c: Config.ServerConfig, d: Config.ClientConfig)
    requires IsServerOf(spec, edKey, pqKey, c) && IsClientOf(spec, digest, d)
    ensures c.limits == Config.Limits(256, 10_000_000_000, 300_000_000_000, 30_000_000_000)
    ensures d.reconnect == Backoff.Reconnect(1_000_000_000, 60_000_000_000, true)
    ensures d.fingerprint == Lit("sha256:") + Hex(digest)
  {}

  // ------------------------------------------------------------ when the server accepts what was generated

  /** No two services of the spec use the same port. */
  ghost predicate DistinctPorts(services: map<Str, SpecService>)
  {
    forall n, m :: n in services && m in services && n != m ==> PortOf(services[n].server) != PortOf(services[m].server)
  }

  lemma ListensDiffer(spec: Spec, n: Str, m: Str)
    requires ValidSpec(spec) && n in spec.services && m in spec.services && n != m
    ensures ServerListen(spec, spec.services[n]) != ServerListen(spec, spec.services[m]) <==>
            spec.serverMode == HOST || PortOf(spec.services[n].server) != PortOf(spec.services[m].server)
  {
    var p, q := PortOf(spec.services[n].server), PortOf(spec.services[m].server);
    assert AnyAddress(p)[8..] == p && AnyAddress(q)[8..] == q;
  }

  lemma ListenSplits(spec: Spec, n: Str)
    requires ValidSpec(spec) && n in spec.services
    ensures Splits(ServerListen(spec, spec.services[n]))
  {
    assert ServiceOk(n, spec.services[n]);
    PortOfIsPlain(spec.services[n].server);
    AnyAddressSplits(PortOf(spec.services[n].server));
  }

  /** Each service of the one client, on its own, is as Validate wants it. */
  lemma EntriesOk(parse: Cidr.Parser, spec: Spec, names: seq<Str>)
    requires ValidSpec(spec) && Enumerates(names, spec.services.Keys)
    ensures var r := Entries(spec, names);
            && r != [] && Config.UniqueNames(r)
            && forall j :: 0 <= j < |r| ==> Config.ServiceOk(parse, r[j])
  {
    var r := Entries(spec, names);
    AscendingNoDup(names);
    var n :| n in spec.services;
    assert n in names;
    forall j | 0 <= j < |r| ensures Config.ServiceOk(parse, r[j]) {
      assert names[j] in names;
      assert ServiceOk(names[j], spec.services[names[j]]);
      ListenSplits(spec, names[j]);
    }
  }

  lemma EntriesApart(spec: Spec, names: seq<Str>, j: int, k: int)
    requires ValidSpec(spec) && Enumerates(names, spec.services.Keys)
    requires spec.serverMode == HOST || DistinctPorts(spec.services)
    requires 0 <= j < |names| && 0 <= k < |names| && j != k
    ensures Entries(spec, names)[j].listen != Entries(spec, names)[k].listen
  {
    AscendingNoDup(names);
    assert names[j] in names && names[k] in names && names[j] != names[k];
    ListensDiffer(spec, names[j], names[k]);
  }

  lemma EntriesListenApart(spec: Spec, names: seq<Str>, clients: seq<Config.ClientEntry>)
    requires ValidSpec(spec) && Enumerates(names, spec.services.Keys)
    requires |clients| == 1 && clients[0].services == Entries(spec, names)
    requires spec.serverMode == HOST || DistinctPorts(spec.services)
    ensures Config.UniqueListens(clients)
  {
    forall i, j, i', j' | Config.At(clients, i, j) && Config.At(clients, i', j') && (i != i' || j != j')
      ensures clients[i].services[j].listen != clients[i'].services[j'].listen
    {
      EntriesApart(spec, names, j, j');
    }
  }

  lemma ListensNeedPorts(spec: Spec, names: seq<Str>, clients: seq<Config.ClientEntry>, n: Str, m: Str)
    requires ValidSpec(spec) && Enumerates(names, spec.services.Keys) && spec.serverMode != HOST
    requires |clients| == 1 && clients[0].services == Entries(spec, names) && Config.UniqueListens(clients)
    requires n in spec.services && m in spec.services && n != m
    ensures PortOf(spec.services[n].server) != PortOf(spec.services[m].server)
  {
    assert n in names && m in names;
    var i :| 0 <= i < |names| && names[i] == n;
    var j :| 0 <= j < |names| && names[j] == m;
    assert Config.At(clients, 0, i) && Config.At(clients, 0, j);
    ListensDiffer(spec, n, m);
  }

  /** With one client, uniqueness of addresses is a matter of the mode and the ports. */
  lemma EntriesListen(spec: Spec, names: seq<Str>, clients: seq<Config.ClientEntry>)
    requires ValidSpec(spec) && Enumerates(names, spec.services.Keys)
    requires |clients| == 1 && clients[0].services == Entries(spec, names)
    ensures Config.UniqueListens(clients) <==> spec.serverMode == HOST || DistinctPorts(spec.services)
  {
    if spec.serverMode == HOST || DistinctPorts(spec.services) {
      EntriesListenApart(spec, names, clients);
    } else {
      var n, m :| n in spec.services && m in spec.services && n != m
                  && PortOf(spec.services[n].server) == PortOf(spec.services[m].server);
      if Config.UniqueListens(clients) {
        ListensNeedPorts(spec, names, clients, n, m);
      }
    }
  }

  /** A generated key text starts with its prefix and reads back as the key. */
  lemma GeneratedKeyReads(prefix: Str, key: Str)
    ensures var text := KeyText.EncodeKey(prefix, key);
            Config.KeysPrefixed([text], prefix) && Handshake.Reads(text, prefix, |key|, key)
  {
    KeyText.KeyRoundTrip(prefix, key, key);
  }

  lemma GeneratedEntryOk(parse: Cidr.Parser, spec: Spec, edKey: Str, pqKey: Str, c: Config.ServerConfig)
    returns (names: seq<Str>)
    requires ValidSpec(spec) && IsServerOf(spec, edKey, pqKey, c)
    ensures Config.ClientOk(parse, c.clients[0])
    ensures Enumerates(names, spec.services.Keys) && c.clients[0].services == Entries(spec, names)
  {
    var e := c.clients[0];
    names :| Enumerates(names, spec.services.Keys) && e.services == Entries(spec, names);
    GeneratedKeyReads(KeyText.PUBKEY_PREFIX, edKey);
    GeneratedKeyReads(KeyText.PQ_PUBKEY_PREFIX, pqKey);
    EntriesOk(parse, spec, names);
  }

  lemma OneClientValidIff(parse: Cidr.Parser, c: Config.ServerConfig)
    requires |c.clients| == 1 && Config.ClientOk(parse, c.clients[0])
    requires Splits(c.listen) && c.cert != [] && c.key != [] && Config.LimitsOk(c.limits)
    ensures Config.ValidServer(parse, c) <==> Config.UniqueListens(c.clients)
  {}

  /** The server configuration generated from a valid spec is valid always in host mode, and in
    * isolated mode exactly when no two services share a port. */
  lemma GeneratedServerValidIff(parse: Cidr.Parser, spec: Spec, edKey: Str, pqKey: Str, c: Config.ServerConfig)
    requires ValidSpec(spec) && IsServerOf(spec, edKey, pqKey, c)
    ensures Config.ValidServer(parse, c) <==> spec.serverMode == HOST || DistinctPorts(spec.services)
  {
    var names := GeneratedEntryOk(parse, spec, edKey, pqKey, c);
    EntriesListen(spec, names, c.clients);
    assert SERVER_CERT[0] == 47 && SERVER_KEY[0] == 47;
    OneClientValidIff(parse, c);
  }

  /** Two services on two addresses. */
  function TwoServices(n: Str, m: Str, here: Str, there: Str): (r: map<Str, SpecService>)
  {
    map[n := SpecService(here, here), m := SpecService(here, there)]
  }

  lemma TwoServicesPass(n: Str, m: Str, here: Str, there: Str)
    requires Splits(here) && Splits(there) && here != there && n != [] && m != [] && n != m
    ensures var r := TwoServices(n, m, here, there);
            (forall x :: x in r ==> ServiceOk(x, r[x])) && DistinctServers(r) && n in r && m in r
  {
    var r := TwoServices(n, m, here, there);
    assert r.Keys == {n, m};
  }

  /** When the addresses share a port, the spec passes in isolated mode, and the configuration
    * generated from it is refused. */
  lemma SharedPortIsRefused(parse: Cidr.Parser, s: Spec, n: Str, m: Str, here: Str, there: Str,
                            edKey: Str, pqKey: Str, c: Config.ServerConfig)
    requires Splits(here) && Splits(there) && here != there && PortOf(here) == PortOf(there)
    requires n != [] && m != [] && n != m
    requires s == Spec(here, here, ISOLATED, HOST, n, [], TwoServices(n, m, here, there))
    requires IsServerOf(s, edKey, pqKey, c)
    ensures ValidSpec(s) && !Config.ValidServer(parse, c)
  {
    TwoServicesPass(n, m, here, there);
    assert ISOLATED[0] != HOST[0];
    GeneratedServerValidIff(parse, s, edKey, pqKey, c);
  }

  /** Both sides know the same service names. */
  lemma SameServiceNames(spec: Spec, edKey: Str, pqKey: Str, c: Config.ServerConfig, name: Str)
    requires IsServerOf(spec, edKey, pqKey, c)
    ensures Handshake.Offers(c.clients[0], name) <==> name in spec.services
  {
    var e := c.clients[0];
    var names :| Enumerates(names, spec.services.Keys) && e.services == Entries(spec, names);
    if name in spec.services {
      assert name in names;
      var j :| 0 <= j < |names| && names[j] == name;
      assert e.services[j].name == name;
    }
    if Handshake.Offers(e, name) {
      var j :| 0 <= j < |e.services| && e.services[j].name == name;
      assert names[j] in names;
    }
  }

  lemma GeneratedKeysDecode(spec: Spec, edKey: Str, pqKey: Str, c: Config.ServerConfig)
    requires IsServerOf(spec, edKey, pqKey, c)
    requires |edKey| == KeyText.ED25519_KEY_SIZE && |pqKey| == KeyText.MLDSA_KEY_SIZE
    ensures Handshake.EdKeyOf(c.clients[0], edKey) && Handshake.PqKeyOf(c.clients[0], pqKey)
    ensures Handshake.KeysDecode(c.clients[0])
  {
    var e := c.clients[0];
    GeneratedKeyReads(KeyText.PUBKEY_PREFIX, edKey);
    GeneratedKeyReads(KeyText.PQ_PUBKEY_PREFIX, pqKey);
    assert Handshake.Reads(e.pubkeys[0], KeyText.PUBKEY_PREFIX, KeyText.ED25519_KEY_SIZE, edKey);
    assert Handshake.Reads(e.pqPubkeys[0], KeyText.PQ_PUBKEY_PREFIX, KeyText.MLDSA_KEY_SIZE, pqKey);
  }

  lemma RequestIsOffered(spec: Spec, edKey: Str, pqKey: Str, c: Config.ServerConfig, requested: seq<Str>)
    requires spec.services != map[] && IsServerOf(spec, edKey, pqKey, c)
    requires forall n :: n in requested <==> n in spec.services
    ensures requested != []
    ensures forall k :: 0 <= k < |requested| ==> Handshake.Offers(c.clients[0], requested[k])
  {
    var n :| n in spec.services;
    assert n in requested;
    forall k | 0 <= k < |requested| ensures Handshake.Offers(c.clients[0], requested[k]) {
      assert requested[k] in requested;
      SameServiceNames(spec, edKey, pqKey, c, requested[k]);
    }
  }

  /** The generated pair works together: the keys of the server configuration decode, and a client
    * that requests the names of its generated configuration, with its clock in the window, is one
    * the generated server admits. */
  lemma GeneratedClientIsAdmitted(spec: Spec, edKey: Str, pqKey: Str, c: Config.ServerConfig, requested: seq<Str>,
                                  now: ClockSkew.Time, time: Int64)
    requires ValidSpec(spec) && IsServerOf(spec, edKey, pqKey, c)
    requires |edKey| == KeyText.ED25519_KEY_SIZE && |pqKey| == KeyText.MLDSA_KEY_SIZE
    requires (forall n :: n in requested <==> n in spec.services) && ClockSkew.WithinWindow(now, time)
    ensures Handshake.AllDecode(c.clients, 1)
    ensures Exchange.Admissible(c.clients, Exchange.Peer(spec.id, edKey, pqKey, requested), now, time)
  {
    GeneratedKeysDecode(spec, edKey, pqKey, c);
    RequestIsOffered(spec, edKey, pqKey, c, requested);
    assert Handshake.FindClient(c.clients, spec.id) == 0;
  }

  // ------------------------------------------------------------ published ports

  /** serverPublishedPorts: the control port, then one mapping per service in the order of the
    * server configuration. */
  method ServerPublishedPorts(spec: Spec) returns (out: seq<Str>, ghost names: seq<Str>)
    ensures Enumerates(names, spec.services.Keys) && |out| == 1 + |names|
    ensures out[0] == HostPortMapping(spec.listen)
    ensures forall i :: 0 <= i < |names| ==>
              names[i] in spec.services && out[i + 1] == HostPortMapping(spec.services[names[i]].server)
  {
    out := [HostPortMapping(spec.listen)];
    var sorted := SortedServiceNames(spec.services);
    names := sorted;
    assert forall k :: 0 <= k < |sorted| ==> sorted[k] in sorted && sorted[k] in spec.services;
    for i := 0 to |sorted|
      invariant |out| == 1 + i && out[0] == HostPortMapping(spec.listen)
      invariant forall k :: 0 <= k < i ==> out[k + 1] == HostPortMapping(spec.services[sorted[k]].server)
    {
      out := out + [HostPortMapping(spec.services[sorted[i]].server)];
    }
  }

  /** A listener on this host takes what comes to any address of the container. */
  predicate WideHost(host: Str)
  {
    host == [] || host == ANY_HOST || host == ANY_HOST_6
  }

  /** A published mapping leads into the container to this listener. */
  ghost predicate LeadsTo(mapping: Str, listen: Str)
  {
    var m := ReadMapping(mapping);
    m.Some? && Splits(listen) && WideHost(HostOf(listen)) && PortOf(listen) == m.value.containerPort
  }

  /** No service uses the port of the control listener. */
  ghost predicate ControlPortFree(spec: Spec)
  {
    forall n :: n in spec.services ==> PortOf(spec.services[n].server) != PortOf(spec.listen)
  }

  lemma MappingLeadsIff(addr: Str, listen: Str)
    requires Splits(listen)
    ensures LeadsTo(HostPortMapping(addr), listen) <==> WideHost(HostOf(listen)) && PortOf(listen) == PortOf(addr)
  {
    MappingReadsBack(addr);
  }

  lemma IsolatedListen(spec: Spec, n: Str)
    requires spec.serverMode == ISOLATED && n in spec.services
    ensures var listen := ServerListen(spec, spec.services[n]);
            && listen == Lit("0.0.0.0") + [':' as int] + PortOf(spec.services[n].server)
            && Splits(listen) && HostOf(listen) == ANY_HOST && PortOf(listen) == PortOf(spec.services[n].server)
  {
    assert ISOLATED[0] != HOST[0];
    PortOfIsPlain(spec.services[n].server);
    AnyAddressSplits(PortOf(spec.services[n].server));
  }

  /** In isolated mode, with a configuration the server accepts: the mapping published for a service
    * leads to the listener of that service and of no other service; it leads to the control listener
    * exactly when that is wide and the ports coincide; and the mapping of the control port leads to a
    * service's listener exactly when the ports coincide. */
  lemma MappingLeadsHome(parse: Cidr.Parser, spec: Spec, edKey: Str, pqKey: Str, c: Config.ServerConfig, n: Str, m: Str)
    requires ValidSpec(spec) && spec.serverMode == ISOLATED && IsServerOf(spec, edKey, pqKey, c)
    requires Config.ValidServer(parse, c) && n in spec.services && m in spec.services
    ensures LeadsTo(HostPortMapping(spec.services[n].server), ServerListen(spec, spec.services[m])) <==> n == m
    ensures LeadsTo(HostPortMapping(spec.services[n].server), spec.listen) <==>
            WideHost(HostOf(spec.listen)) && PortOf(spec.services[n].server) == PortOf(spec.listen)
    ensures LeadsTo(HostPortMapping(spec.listen), ServerListen(spec, spec.services[m])) <==>
            PortOf(spec.services[m].server) == PortOf(spec.listen)
  {
    assert ISOLATED[0] != HOST[0];
    GeneratedServerValidIff(parse, spec, edKey, pqKey, c);
    IsolatedListen(spec, m);
    MappingLeadsIff(spec.services[n].server, ServerListen(spec, spec.services[m]));
    MappingLeadsIff(spec.services[n].server, spec.listen);
    MappingLeadsIff(spec.listen, ServerListen(spec, spec.services[m]));
  }

  // ------------------------------------------------------------ whether the generated server can listen

  /** How TCP addresses get in each other's way: one port, and one host or a wildcard. */
  predicate TcpClash(a: Str, b: Str)
  {
    Splits(a) && Splits(b) && PortOf(a) == PortOf(b)
    && (HostOf(a) == HostOf(b) || WideHost(HostOf(a)) || WideHost(HostOf(b)))
  }

  ghost predicate ClashesAsTcp(p: SessionMachine.Params)
  {
    forall a, b :: p.clash(a, b) == TcpClash(a, b)
  }

  /** The addresses of the generated server are not in each other's way, its own included. */
  ghost predicate ListensApart(p: SessionMachine.Params, spec: Spec)
  {
    && (forall n :: n in spec.services ==>
          !SessionMachine.Conflict(p, spec.listen, ServerListen(spec, spec.services[n])))
    && (forall n, m :: n in spec.services && m in spec.services && n != m ==>
          !SessionMachine.Conflict(p, ServerListen(spec, spec.services[n]), ServerListen(spec, spec.services[m])))
  }

  /** A position of the generated configuration is a service of the spec. */
  lemma PlaceIsService(spec: Spec, edKey: Str, pqKey: Str, c: Config.ServerConfig, i: int, j: int) returns (n: Str)
    requires IsServerOf(spec, edKey, pqKey, c) && Config.At(c.clients, i, j)
    ensures n in spec.services && c.clients[i].services[j].name == n && c.clients[i].services[j].cidrs == []
    ensures c.clients[i].services[j].listen == ServerListen(spec, spec.services[n])
  {
    var names :| Enumerates(names, spec.services.Keys) && c.clients[0].services == Entries(spec, names);
    n := names[j];
    assert n in names;
  }

  lemma ServiceHasPlace(spec: Spec, edKey: Str, pqKey: Str, c: Config.ServerConfig, n: Str) returns (j: int)
    requires IsServerOf(spec, edKey, pqKey, c) && n in spec.services
    ensures Config.At(c.clients, 0, j) && c.clients[0].services[j].name == n
    ensures c.clients[0].services[j].listen == ServerListen(spec, spec.services[n])
  {
    var names :| Enumerates(names, spec.services.Keys) && c.clients[0].services == Entries(spec, names);
    assert n in names;
    j :| 0 <= j < |names| && names[j] == n;
  }

  lemma ClearIfApart(parse: Cidr.Parser, p: SessionMachine.Params, spec: Spec, edKey: Str, pqKey: Str, c: Config.ServerConfig)
    requires IsServerOf(spec, edKey, pqKey, c) && Config.ValidServer(parse, c) && ListensApart(p, spec)
    ensures Deployment.ClearOfControl(p, c) && Deployment.ClearOfEachOther(p, c)
  {
    forall i, j | Config.At(c.clients, i, j)
      ensures !SessionMachine.Conflict(p, c.listen, c.clients[i].services[j].listen)
    {
      var n := PlaceIsService(spec, edKey, pqKey, c, i, j);
    }
    assert Config.ClientOk(parse, c.clients[0]);
    forall i, j, i', j' | Config.At(c.clients, i, j) && Config.At(c.clients, i', j') && (i != i' || j != j')
      ensures !SessionMachine.Conflict(p, c.clients[i].services[j].listen, c.clients[i'].services[j'].listen)
    {
      var n := PlaceIsService(spec, edKey, pqKey, c, i, j);
      var m := PlaceIsService(spec, edKey, pqKey, c, i', j');
    }
  }

  lemma ApartIfClear(p: SessionMachine.Params, spec: Spec, edKey: Str, pqKey: Str, c: Config.ServerConfig)
    requires IsServerOf(spec, edKey, pqKey, c)
    requires Deployment.ClearOfControl(p, c) && Deployment.ClearOfEachOther(p, c)
    ensures ListensApart(p, spec)
  {
    forall n | n in spec.services ensures !SessionMachine.Conflict(p, spec.listen, ServerListen(spec, spec.services[n])) {
      var j := ServiceHasPlace(spec, edKey, pqKey, c, n);
    }
    forall n, m | n in spec.services && m in spec.services && n != m
      ensures !SessionMachine.Conflict(p, ServerListen(spec, spec.services[n]), ServerListen(spec, spec.services[m]))
    {
      var j := ServiceHasPlace(spec, edKey, pqKey, c, n);
      var k := ServiceHasPlace(spec, edKey, pqKey, c, m);
    }
  }

  /** In either mode, a generated configuration that the server accepts can bind all its services, in
    * clear runs of clients that ask for distinct names, if and only if its addresses are apart. */
  lemma GeneratedBindsIff(parse: Cidr.Parser, spec: Spec, edKey: Str, pqKey: Str, c: Config.ServerConfig,
                          idx: Handshake.Index, p: SessionMachine.Params)
    requires IsServerOf(spec, edKey, pqKey, c) && Deployment.Deployed(parse, c, idx, p)
    ensures CollisionRuns.AllBindsPossible(p) <==> ListensApart(p, spec)
  {
    Deployment.DeployedBindsIff(parse, c, idx, p);
    if ListensApart(p, spec) {
      ClearIfApart(parse, p, spec, edKey, pqKey, c);
    } else if CollisionRuns.AllBindsPossible(p) {
      ApartIfClear(p, spec, edKey, pqKey, c);
    }
  }

  lemma IsolatedConflict(p: SessionMachine.Params, spec: Spec, addr: Str, n: Str)
    requires ClashesAsTcp(p) && spec.serverMode == ISOLATED && n in spec.services && Splits(addr)
    ensures SessionMachine.Conflict(p, addr, ServerListen(spec, spec.services[n])) <==>
            PortOf(spec.services[n].server) == PortOf(addr)
  {
    IsolatedListen(spec, n);
    var listen := ServerListen(spec, spec.services[n]);
    assert p.clash(addr, listen) == TcpClash(addr, listen) && p.clash(listen, addr) == TcpClash(listen, addr);
  }

  /** In isolated mode, by the rules of TCP, that is so if and only if the service ports are pairwise
    * distinct, which the server checks, and none is the control port, which nobody does. */
  lemma IsolatedApartIff(p: SessionMachine.Params, spec: Spec)
    requires ValidSpec(spec) && spec.serverMode == ISOLATED && ClashesAsTcp(p)
    ensures ListensApart(p, spec) <==> DistinctPorts(spec.services) && ControlPortFree(spec)
  {
    forall n | n in spec.services
      ensures SessionMachine.Conflict(p, spec.listen, ServerListen(spec, spec.services[n])) <==>
              PortOf(spec.services[n].server) == PortOf(spec.listen)
    {
      IsolatedConflict(p, spec, spec.listen, n);
    }
    forall n, m | n in spec.services && m in spec.services
      ensures SessionMachine.Conflict(p, ServerListen(spec, spec.services[n]), ServerListen(spec, spec.services[m])) <==>
              PortOf(spec.services[m].server) == PortOf(spec.services[n].server)
    {
      IsolatedListen(spec, n);
      IsolatedConflict(p, spec, ServerListen(spec, spec.services[n]), m);
    }
  }

  /** A service on the control port passes everywhere: moving the control address of a valid spec onto
    * the address of one of its services leaves the spec valid, and its configuration as valid as
    * before. */
  lemma ControlPortPasses(parse: Cidr.Parser, spec: Spec, n: Str, edKey: Str, pqKey: Str, c: Config.ServerConfig)
    requires ValidSpec(spec) && n in spec.services
    requires IsServerOf(spec.(listen := spec.services[n].server), edKey, pqKey, c)
    ensures var s := spec.(listen := spec.services[n].server);
            && ValidSpec(s) && !ControlPortFree(s)
            && (Config.ValidServer(parse, c) <==> s.serverMode == HOST || DistinctPorts(s.services))
  {
    var s := spec.(listen := spec.services[n].server);
    assert ServiceOk(n, spec.services[n]);
    GeneratedServerValidIff(parse, s, edKey, pqKey, c);
  }
}
