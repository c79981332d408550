/** internal/config/config.go: configurations and their validators. */
module Config {
  import opened Bytes
  import opened HostPort
  import Cidr
  import KeyText
  import Backoff

  datatype ServiceEntry = ServiceEntry(name: Str, listen: Str, cidrs: seq<Str>)

  datatype ClientEntry = ClientEntry(id: Str, pubkeys: seq<Str>, pqPubkeys: seq<Str>, services: seq<ServiceEntry>)

  datatype Limits = Limits(maxStreams: int, handshakeTimeout: Int64, idleTimeout: Int64, heartbeat: Int64)

  datatype ServerConfig = ServerConfig(listen: Str, cert: Str, key: Str, clients: seq<ClientEntry>, limits: Limits)

  datatype ConfigError =
    | ListenRequired
    | BadListen
    | TlsRequired
    | NoClients
    | ClientIdRequired(index: nat)
    | DuplicateClientId(id: Str)
    | PubkeyRequired(id: Str)
    | BadPubkeyPrefix(id: Str)
    | PqPubkeyRequired(id: Str)
    | BadPqPubkeyPrefix(id: Str)
    | ServiceRequired(id: Str)
    | ServiceNameRequired(id: Str, index: nat)
    | DuplicateService(id: Str, name: Str)
    | BadServiceListen(id: Str, name: Str)
    | ListenReused(listen: Str, owner: Str)
    | BadServiceCidr(id: Str, name: Str)
    | BadLimits

  // ------------------------------------------------------------ specification

  ghost predicate KeysPrefixed(keys: seq<Str>, prefix: Str)
  {
    keys != [] && forall k :: 0 <= k < |keys| ==> KeyText.HasPrefix(keys[k], prefix)
  }

  ghost predicate ServiceOk(parse: Cidr.Parser, s: ServiceEntry)
  {
    s.name != [] && Splits(s.listen) && Cidr.AllParse(parse, s.cidrs)
  }

  ghost predicate UniqueNames(services: seq<ServiceEntry>)
  {
    forall j, k :: 0 <= j < k < |services| ==> services[j].name != services[k].name
  }

  /** One client on its own. */
  ghost predicate ClientOk(parse: Cidr.Parser, c: ClientEntry)
  {
    && c.id != []
    && KeysPrefixed(c.pubkeys, KeyText.PUBKEY_PREFIX)
    && KeysPrefixed(c.pqPubkeys, KeyText.PQ_PUBKEY_PREFIX)
    && c.services != []
    && (forall j :: 0 <= j < |c.services| ==> ServiceOk(parse, c.services[j]))
    && UniqueNames(c.services)
  }

  ghost predicate UniqueIds(clients: seq<ClientEntry>)
  {
    forall i, k :: 0 <= i < k < |clients| ==> clients[i].id != clients[k].id
  }

  /** (i, j) is the position of a service. */
  ghost predicate At(clients: seq<ClientEntry>, i: int, j: int)
  {
    0 <= i < |clients| && 0 <= j < |clients[i].services|
  }

  /** No two services of the whole server share a listen address. */
  ghost predicate UniqueListens(clients: seq<ClientEntry>)
  {
    forall i, j, i', j' :: At(clients, i, j) && At(clients, i', j') && (i != i' || j != j') ==>
      clients[i].services[j].listen != clients[i'].services[j'].listen
  }

  ghost predicate LimitsOk(l: Limits)
  {
    l.maxStreams >= 1 && l.handshakeTimeout > 0 && 0 < l.heartbeat < l.idleTimeout
  }

  ghost predicate ValidServer(parse: Cidr.Parser, c: ServerConfig)
  {
    && Splits(c.listen)
    && c.cert != [] && c.key != []
    && c.clients != []
    && (forall i :: 0 <= i < |c.clients| ==> ClientOk(parse, c.clients[i]))
    && UniqueIds(c.clients)
    && UniqueListens(c.clients)
    && LimitsOk(c.limits)
  }

  /** The fault that an error names is really there. */
  ghost predicate Blames(parse: Cidr.Parser, clients: seq<ClientEntry>, e: ConfigError)
  {
    match e
    case ClientIdRequired(i) => i < |clients| && clients[i].id == []
    case DuplicateClientId(id) =>
      exists i, k :: 0 <= i < k < |clients| && clients[i].id == clients[k].id == id
    case PubkeyRequired(id) => exists i :: 0 <= i < |clients| && clients[i].id == id && clients[i].pubkeys == []
    case BadPubkeyPrefix(id) =>
      exists i :: 0 <= i < |clients| && clients[i].id == id && !KeysPrefixed(clients[i].pubkeys, KeyText.PUBKEY_PREFIX)
    case PqPubkeyRequired(id) => exists i :: 0 <= i < |clients| && clients[i].id == id && clients[i].pqPubkeys == []
    case BadPqPubkeyPrefix(id) =>
      exists i :: 0 <= i < |clients| && clients[i].id == id && !KeysPrefixed(clients[i].pqPubkeys, KeyText.PQ_PUBKEY_PREFIX)
    case ServiceRequired(id) => exists i :: 0 <= i < |clients| && clients[i].id == id && clients[i].services == []
    case ServiceNameRequired(id, j) =>
      exists i :: At(clients, i, j) && clients[i].id == id && clients[i].services[j].name == []
    case DuplicateService(id, name) =>
      exists i, j, k :: At(clients, i, j) && At(clients, i, k) && j < k && clients[i].id == id
                        && clients[i].services[j].name == clients[i].services[k].name == name
    case BadServiceListen(id, name) =>
      exists i, j :: At(clients, i, j) && clients[i].id == id && clients[i].services[j].name == name
                     && !Splits(clients[i].services[j].listen)
    case ListenReused(listen, owner) =>
      exists i, j, i', j' :: At(clients, i, j) && At(clients, i', j') && (i != i' || j != j')
                             && clients[i].services[j].listen == clients[i'].services[j'].listen == listen
                             && owner == OwnerLabel(clients, i, j)
    case BadServiceCidr(id, name) =>
      exists i, j :: At(clients, i, j) && clients[i].id == id && clients[i].services[j].name == name
                     && !Cidr.AllParse(parse, clients[i].services[j].cidrs)
    case _ => false
  }

  /** How Validate records who owns an address. */
  ghost function OwnerLabel(clients: seq<ClientEntry>, i: int, j: int): (r: Str)
    requires At(clients, i, j)
  {
    clients[i].id + Lit("/") + clients[i].services[j].name
  }

  // ------------------------------------------------------------ the nested loops

  /** Some service of the first i clients, or of the first j services of client i, listens there. */
  ghost predicate Taken(clients: seq<ClientEntry>, i: int, j: int, addr: Str)
  {
    exists i', j' :: At(clients, i', j') && (i' < i || (i' == i && j' < j)) && clients[i'].services[j'].listen == addr
  }

  /** The services before position (i, j) have pairwise distinct addresses. */
  ghost predicate DistinctUpTo(clients: seq<ClientEntry>, i: int, j: int)
  {
    forall a, b, a', b' ::
      At(clients, a, b) && At(clients, a', b') && (a != a' || b != b')
      && (a < i || (a == i && b < j)) && (a' < i || (a' == i && b' < j)) ==>
      clients[a].services[b].listen != clients[a'].services[b'].listen
  }

  method CheckKeys(id: Str, keys: seq<Str>, prefix: Str, none: ConfigError, bad: ConfigError)
    returns (err: Option<ConfigError>)
    ensures err.None? <==> KeysPrefixed(keys, prefix)
    ensures err.Some? ==> err.value == (if keys == [] then none else bad)
  {
    if |keys| == 0 {
      return Some(none);
    }
    for k := 0 to |keys|
      invariant forall m :: 0 <= m < k ==> KeyText.HasPrefix(keys[m], prefix)
    {
      if !KeyText.HasPrefix(keys[k], prefix) {
        return Some(bad);
      }
    }
    return None;
  }

  method CheckCidrs(parse: Cidr.Parser, cidrs: seq<Str>) returns (ok: bool)
    ensures ok <==> Cidr.AllParse(parse, cidrs)
  {
    for k := 0 to |cidrs|
      invariant forall m :: 0 <= m < k ==> parse(cidrs[m]).Some?
    {
      if parse(cidrs[k]).None? {
        return false;
      }
    }
    return true;
  }

  lemma TakenStep(clients: seq<ClientEntry>, i: int, j: int, addr: Str)
    requires At(clients, i, j)
    ensures Taken(clients, i, j + 1, addr) <==> Taken(clients, i, j, addr) || clients[i].services[j].listen == addr
  {
    if clients[i].services[j].listen == addr {
      assert At(clients, i, j);
    }
    if Taken(clients, i, j, addr) {
      var i', j' :| At(clients, i', j') && (i' < i || (i' == i && j' < j)) && clients[i'].services[j'].listen == addr;
    }
  }

  lemma TakenNextClient(clients: seq<ClientEntry>, i: int, addr: Str)
    requires 0 <= i < |clients|
    ensures Taken(clients, i + 1, 0, addr) <==> Taken(clients, i, |clients[i].services|, addr)
  {
    if Taken(clients, i + 1, 0, addr) {
      var i', j' :| At(clients, i', j') && (i' < i + 1 || (i' == i + 1 && j' < 0)) && clients[i'].services[j'].listen == addr;
    }
    if Taken(clients, i, |clients[i].services|, addr) {
      var i', j' :| At(clients, i', j') && (i' < i || (i' == i && j' < |clients[i].services|)) && clients[i'].services[j'].listen == addr;
    }
  }

  lemma DistinctStep(clients: seq<ClientEntry>, i: int, j: int)
    requires At(clients, i, j) && DistinctUpTo(clients, i, j)
    ensures DistinctUpTo(clients, i, j + 1) <==> !Taken(clients, i, j, clients[i].services[j].listen)
  {
    var addr := clients[i].services[j].listen;
    if Taken(clients, i, j, addr) {
      var i', j' :| At(clients, i', j') && (i' < i || (i' == i && j' < j)) && clients[i'].services[j'].listen == addr;
      assert At(clients, i, j);
    }
  }

  lemma UniqueListensUpTo(clients: seq<ClientEntry>, i: int, j: int)
    requires UniqueListens(clients)
    ensures DistinctUpTo(clients, i, j)
  {}

  /** Every recorded address belongs to the service its label names. */
  ghost predicate Labelled(clients: seq<ClientEntry>, listens: map<Str, Str>, i: int, j: int)
  {
    forall a :: a in listens ==>
      exists i', j' :: At(clients, i', j') && (i' < i || (i' == i && j' < j)) && clients[i'].services[j'].listen == a
                       && listens[a] == OwnerLabel(clients, i', j')
  }

  lemma LabelledLater(clients: seq<ClientEntry>, listens: map<Str, Str>, i: int, j: int, i2: int, j2: int)
    requires Labelled(clients, listens, i, j)
    requires i < i2 || (i == i2 && j <= j2)
    ensures Labelled(clients, listens, i2, j2)
  {
    forall a | a in listens
      ensures exists i', j' :: At(clients, i', j') && (i' < i2 || (i' == i2 && j' < j2)) && clients[i'].services[j'].listen == a
                       && listens[a] == OwnerLabel(clients, i', j')
    {
      var i', j' :| At(clients, i', j') && (i' < i || (i' == i && j' < j)) && clients[i'].services[j'].listen == a
                       && listens[a] == OwnerLabel(clients, i', j');
    }
  }

  /** The listens map before position (i, j): the addresses so far, each with its owner's label. */
  ghost predicate Records(clients: seq<ClientEntry>, i: int, j: int, listens: map<Str, Str>)
  {
    (forall a :: a in listens <==> Taken(clients, i, j, a)) && Labelled(clients, listens, i, j)
  }

  lemma RecordsStep(clients: seq<ClientEntry>, i: int, j: int, listens: map<Str, Str>, owner: Str)
    requires At(clients, i, j) && Records(clients, i, j, listens) && owner == OwnerLabel(clients, i, j)
    ensures Records(clients, i, j + 1, listens[clients[i].services[j].listen := owner])
  {
    var next := listens[clients[i].services[j].listen := owner];
    forall a ensures a in next <==> Taken(clients, i, j + 1, a) {
      TakenStep(clients, i, j, a);
    }
    LabelledLater(clients, listens, i, j, i, j + 1);
  }

  lemma RecordsNextClient(clients: seq<ClientEntry>, i: int, listens: map<Str, Str>)
    requires 0 <= i < |clients| && Records(clients, i, |clients[i].services|, listens)
    ensures Records(clients, i + 1, 0, listens)
  {
    forall a ensures a in listens <==> Taken(clients, i + 1, 0, a) {
      TakenNextClient(clients, i, a);
    }
    LabelledLater(clients, listens, i, |clients[i].services|, i + 1, 0);
  }

  /** seenSvc before position j. */
  ghost predicate NamesSeen(services: seq<ServiceEntry>, j: int, seen: set<Str>)
    requires j <= |services|
  {
    forall n :: n in seen <==> exists k :: 0 <= k < j && services[k].name == n
  }

  lemma NamesSeenStep(services: seq<ServiceEntry>, j: nat, seen: set<Str>)
    requires j < |services| && NamesSeen(services, j, seen)
    ensures NamesSeen(services, j + 1, seen + {services[j].name})
  {}

  /** The services before position j are as they should be. */
  ghost predicate ServicesPass(parse: Cidr.Parser, services: seq<ServiceEntry>, j: int)
    requires j <= |services|
  {
    && (forall k :: 0 <= k < j ==> ServiceOk(parse, services[k]))
    && (forall k, m :: 0 <= k < m < j ==> services[k].name != services[m].name)
  }

  lemma ServicesPassStep(parse: Cidr.Parser, services: seq<ServiceEntry>, j: nat, seen: set<Str>)
    requires j < |services| && ServicesPass(parse, services, j) && NamesSeen(services, j, seen)
    ensures ServicesPass(parse, services, j + 1) <==> ServiceOk(parse, services[j]) && services[j].name !in seen
    ensures ServicesPass(parse, services, |services|) ==> ServicesPass(parse, services, j + 1)
  {}

  /** The checks on service j of client i; `seen` are the names before it. */
  method CheckService(parse: Cidr.Parser, clients: seq<ClientEntry>, i: nat, j: nat, seen: set<Str>, listens: map<Str, Str>)
    returns (err: Option<ConfigError>, out: map<Str, Str>)
    requires At(clients, i, j) && NamesSeen(clients[i].services, j, seen) && Records(clients, i, j, listens)
    ensures err.None? <==>
            var s := clients[i].services[j];
            ServiceOk(parse, s) && s.name !in seen && !Taken(clients, i, j, s.listen)
    ensures err.Some? ==> Blames(parse, clients, err.value)
    ensures err.None? ==> Records(clients, i, j + 1, out)
  {
    var id, s := clients[i].id, clients[i].services[j];
    out := listens;
    if s.name == [] {
      return Some(ServiceNameRequired(id, j)), out;
    }
    if s.name in seen {
      var k :| 0 <= k < j && clients[i].services[k].name == s.name;
      assert At(clients, i, k);
      return Some(DuplicateService(id, s.name)), out;
    }
    if !Splits(s.listen) {
      return Some(BadServiceListen(id, s.name)), out;
    }
    if s.listen in listens {
      return Some(ListenReused(s.listen, listens[s.listen])), out;
    }
    RecordsStep(clients, i, j, listens, id + Lit("/") + s.name);
    out := listens[s.listen := id + Lit("/") + s.name];
    var ok := CheckCidrs(parse, s.cidrs);
    if !ok {
      return Some(BadServiceCidr(id, s.name)), out;
    }
    return None, out;
  }

  /** Everything before service j of client i is as it should be, addresses included. */
  ghost predicate PassUpTo(parse: Cidr.Parser, clients: seq<ClientEntry>, i: int, j: int)
    requires 0 <= i < |clients| && j <= |clients[i].services|
  {
    ServicesPass(parse, clients[i].services, j) && DistinctUpTo(clients, i, j)
  }

  lemma PassUpToStep(parse: Cidr.Parser, clients: seq<ClientEntry>, i: nat, j: nat, seen: set<Str>)
    requires At(clients, i, j) && PassUpTo(parse, clients, i, j) && NamesSeen(clients[i].services, j, seen)
    ensures PassUpTo(parse, clients, i, j + 1) <==>
            var s := clients[i].services[j];
            ServiceOk(parse, s) && s.name !in seen && !Taken(clients, i, j, s.listen)
    ensures PassUpTo(parse, clients, i, |clients[i].services|) ==> PassUpTo(parse, clients, i, j + 1)
    ensures NamesSeen(clients[i].services, j + 1, seen + {clients[i].services[j].name})
  {
    DistinctStep(clients, i, j);
    ServicesPassStep(parse, clients[i].services, j, seen);
    NamesSeenStep(clients[i].services, j, seen);
    if DistinctUpTo(clients, i, |clients[i].services|) {
      DistinctEarlier(clients, i, j + 1);
    }
  }

  lemma DistinctEarlier(clients: seq<ClientEntry>, i: nat, j: int)
    requires i < |clients| && j <= |clients[i].services| && DistinctUpTo(clients, i, |clients[i].services|)
    ensures DistinctUpTo(clients, i, j)
  {}

  /** The loop over the services of client i. */
  method CheckServices(parse: Cidr.Parser, clients: seq<ClientEntry>, i: nat, listens: map<Str, Str>)
    returns (err: Option<ConfigError>, out: map<Str, Str>)
    requires i < |clients| && Records(clients, i, 0, listens) && DistinctUpTo(clients, i, 0)
    ensures err.None? <==> PassUpTo(parse, clients, i, |clients[i].services|)
    ensures err.Some? ==> Blames(parse, clients, err.value)
    ensures err.None? ==> Records(clients, i, |clients[i].services|, out)
  {
    var services := clients[i].services;
    var seen: set<Str> := {};
    out := listens;
    for j := 0 to |services|
      invariant PassUpTo(parse, clients, i, j) && NamesSeen(services, j, seen) && Records(clients, i, j, out)
    {
      PassUpToStep(parse, clients, i, j, seen);
      err, out := CheckService(parse, clients, i, j, seen, out);
      if err.Some? {
        return;
      }
      seen := seen + {services[j].name};
    }
    return None, out;
  }

  /** ServerConfig.Validate: the loops accept exactly the configurations of the quantified specification. */
  method ValidateServer(parse: Cidr.Parser, c: ServerConfig) returns (err: Option<ConfigError>)
    ensures err.None? <==> ValidServer(parse, c)
    ensures match err {
              case None => true
              case Some(ListenRequired) => c.listen == []
              case Some(BadListen) => !Splits(c.listen)
              case Some(TlsRequired) => c.cert == [] || c.key == []
              case Some(NoClients) => c.clients == []
              case Some(BadLimits) => !LimitsOk(c.limits)
              case Some(e) => Blames(parse, c.clients, e)
            }
  {
    if c.listen == [] {
      return Some(ListenRequired);
    }
    if !Splits(c.listen) {
      return Some(BadListen);
    }
    if c.cert == [] || c.key == [] {
      return Some(TlsRequired);
    }
    if |c.clients| == 0 {
      return Some(NoClients);
    }
    err := CheckClients(parse, c.clients);
    if err.Some? {
      return;
    }
    var l := c.limits;
    if l.maxStreams < 1 || l.handshakeTimeout <= 0 || l.idleTimeout <= 0 || l.heartbeat <= 0
       || l.heartbeat >= l.idleTimeout {
      return Some(BadLimits);
    }
    return None;
  }

  /** seenIDs before client i. */
  ghost predicate IdsSeen(clients: seq<ClientEntry>, i: int, seen: set<Str>)
    requires i <= |clients|
  {
    forall id :: id in seen <==> exists k :: 0 <= k < i && clients[k].id == id
  }

  lemma IdsSeenStep(clients: seq<ClientEntry>, i: nat, seen: set<Str>)
    requires i < |clients| && IdsSeen(clients, i, seen)
    ensures IdsSeen(clients, i + 1, seen + {clients[i].id})
  {}

  ghost predicate ClientsPass(parse: Cidr.Parser, clients: seq<ClientEntry>, i: int)
    requires i <= |clients|
  {
    && (forall k :: 0 <= k < i ==> ClientOk(parse, clients[k]))
    && (forall k, m :: 0 <= k < m < i ==> clients[k].id != clients[m].id)
  }

  lemma ClientsPassStep(parse: Cidr.Parser, clients: seq<ClientEntry>, i: nat, seen: set<Str>)
    requires i < |clients| && ClientsPass(parse, clients, i) && IdsSeen(clients, i, seen)
    ensures ClientsPass(parse, clients, i + 1) <==> ClientOk(parse, clients[i]) && clients[i].id !in seen
    ensures ClientsPass(parse, clients, |clients|) ==> ClientsPass(parse, clients, i + 1)
  {}

  /** The checks on client i. */
  method CheckClient(parse: Cidr.Parser, clients: seq<ClientEntry>, i: nat, seen: set<Str>, listens: map<Str, Str>)
    returns (err: Option<ConfigError>, out: map<Str, Str>)
    requires i < |clients| && IdsSeen(clients, i, seen) && Records(clients, i, 0, listens) && DistinctUpTo(clients, i, 0)
    ensures err.None? <==> && ClientOk(parse, clients[i]) && clients[i].id !in seen
                           && DistinctUpTo(clients, i, |clients[i].services|)
    ensures err.Some? ==> Blames(parse, clients, err.value)
    ensures err.None? ==> Records(clients, i, |clients[i].services|, out)
  {
    var ce := clients[i];
    out := listens;
    if ce.id == [] {
      return Some(ClientIdRequired(i)), out;
    }
    if ce.id in seen {
      return Some(DuplicateClientId(ce.id)), out;
    }
    err := CheckKeys(ce.id, ce.pubkeys, KeyText.PUBKEY_PREFIX, PubkeyRequired(ce.id), BadPubkeyPrefix(ce.id));
    if err.Some? {
      return;
    }
    err := CheckKeys(ce.id, ce.pqPubkeys, KeyText.PQ_PUBKEY_PREFIX, PqPubkeyRequired(ce.id), BadPqPubkeyPrefix(ce.id));
    if err.Some? {
      return;
    }
    if |ce.services| == 0 {
      return Some(ServiceRequired(ce.id)), out;
    }
    err, out := CheckServices(parse, clients, i, listens);
  }

  /** Everything before client i is as it should be, addresses included. */
  ghost predicate AllPassUpTo(parse: Cidr.Parser, clients: seq<ClientEntry>, i: int)
    requires i <= |clients|
  {
    ClientsPass(parse, clients, i) && DistinctUpTo(clients, i, 0)
  }

  lemma AllPassUpToStep(parse: Cidr.Parser, clients: seq<ClientEntry>, i: nat, seen: set<Str>)
    requires i < |clients| && AllPassUpTo(parse, clients, i) && IdsSeen(clients, i, seen)
    ensures AllPassUpTo(parse, clients, i + 1) <==>
            ClientOk(parse, clients[i]) && clients[i].id !in seen && DistinctUpTo(clients, i, |clients[i].services|)
    ensures ClientsPass(parse, clients, |clients|) && UniqueListens(clients) ==> AllPassUpTo(parse, clients, i + 1)
    ensures IdsSeen(clients, i + 1, seen + {clients[i].id})
  {
    ClientsPassStep(parse, clients, i, seen);
    IdsSeenStep(clients, i, seen);
    DistinctNextClient(clients, i);
    if UniqueListens(clients) {
      UniqueListensUpTo(clients, i + 1, 0);
    }
  }

  /** The loop over the clients. */
  method CheckClients(parse: Cidr.Parser, clients: seq<ClientEntry>) returns (err: Option<ConfigError>)
    ensures err.None? <==> ClientsPass(parse, clients, |clients|) && UniqueListens(clients)
    ensures err.Some? ==> Blames(parse, clients, err.value)
  {
    var seen: set<Str> := {};
    var listens: map<Str, Str> := map[];
    for i := 0 to |clients|
      invariant AllPassUpTo(parse, clients, i) && IdsSeen(clients, i, seen) && Records(clients, i, 0, listens)
    {
      AllPassUpToStep(parse, clients, i, seen);
      err, listens := CheckClient(parse, clients, i, seen, listens);
      if err.Some? {
        return;
      }
      seen := seen + {clients[i].id};
      RecordsNextClient(clients, i, listens);
    }
    UniqueListensWhole(clients);
    return None;
  }

  lemma DistinctNextClient(clients: seq<ClientEntry>, i: nat)
    requires i < |clients|
    ensures DistinctUpTo(clients, i, |clients[i].services|) <==> DistinctUpTo(clients, i + 1, 0)
  {}

  lemma UniqueListensWhole(clients: seq<ClientEntry>)
    requires DistinctUpTo(clients, |clients|, 0)
    ensures UniqueListens(clients)
  {}

  // ------------------------------------------------------------ the client side

  datatype ClientConfig = ClientConfig(
    remote: Str, fingerprint: Str, id: Str, privkeyFile: Str, pqPrivkeyFile: Str,
    services: map<Str, Str>, reconnect: Backoff.Reconnect)

  const FINGERPRINT_PREFIX: Str := Lit("sha256:")

  ghost predicate ValidClient(c: ClientConfig)
  {
    && Splits(c.remote)
    && KeyText.HasPrefix(c.fingerprint, FINGERPRINT_PREFIX) && |c.fingerprint| == 7 + 64
    && c.id != [] && c.privkeyFile != [] && c.pqPrivkeyFile != []
    && c.services != map[]
    && (forall name :: name in c.services ==> name != [] && Splits(c.services[name]))
    && c.reconnect.Valid()
  }

  datatype ClientError =
    | RemoteRequired
    | BadRemote
    | BadFingerprintPrefix
    | BadFingerprintLength
    | IdentityRequired
    | PrivkeyRequired
    | PqPrivkeyRequired
    | TargetsRequired
    | EmptyName
    | BadTarget(name: Str)
    | BadInitialBackoff
    | BadMaxBackoff
    | MaxBelowInitial

  /** The fault that an error names is really there. */
  ghost predicate BlamesClient(c: ClientConfig, e: ClientError)
  {
    match e
    case RemoteRequired => c.remote == []
    case BadRemote => !Splits(c.remote)
    case BadFingerprintPrefix => !KeyText.HasPrefix(c.fingerprint, FINGERPRINT_PREFIX)
    case BadFingerprintLength => |c.fingerprint| != 7 + 64
    case IdentityRequired => c.id == []
    case PrivkeyRequired => c.privkeyFile == []
    case PqPrivkeyRequired => c.pqPrivkeyFile == []
    case TargetsRequired => c.services == map[]
    case EmptyName => [] in c.services
    case BadTarget(name) => name in c.services && !Splits(c.services[name])
    case BadInitialBackoff => c.reconnect.initial <= 0
    case BadMaxBackoff => c.reconnect.max <= 0
    case MaxBelowInitial => c.reconnect.max < c.reconnect.initial
  }

  /** The service loop of ClientConfig.Validate; the services are visited in any order. */
  method CheckTargets(c: ClientConfig) returns (err: Option<ClientError>)
    ensures err.None? <==> forall name :: name in c.services ==> name != [] && Splits(c.services[name])
    ensures err.Some? ==> BlamesClient(c, err.value)
  {
    var left := c.services.Keys;
    while left != {}
      invariant left <= c.services.Keys
      invariant forall n :: n in c.services && n !in left ==> n != [] && Splits(c.services[n])
      decreases |left|
    {
      var name :| name in left;
      if name == [] {
        return Some(EmptyName);
      }
      if !Splits(c.services[name]) {
        return Some(BadTarget(name));
      }
      left := left - {name};
    }
    return None;
  }

  /** ClientConfig.Validate. */
  method ValidateClient(c: ClientConfig) returns (err: Option<ClientError>)
    ensures err.None? <==> ValidClient(c)
    ensures err.Some? ==> BlamesClient(c, err.value)
  {
    if c.remote == [] {
      return Some(RemoteRequired);
    }
    if !Splits(c.remote) {
      return Some(BadRemote);
    }
    if !KeyText.HasPrefix(c.fingerprint, FINGERPRINT_PREFIX) {
      return Some(BadFingerprintPrefix);
    }
    if |c.fingerprint| != 7 + 64 {
      return Some(BadFingerprintLength);
    }
    if c.id == [] {
      return Some(IdentityRequired);
    }
    if c.privkeyFile == [] {
      return Some(PrivkeyRequired);
    }
    if c.pqPrivkeyFile == [] {
      return Some(PqPrivkeyRequired);
    }
    if |c.services| == 0 {
      return Some(TargetsRequired);
    }
    err := CheckTargets(c);
    if err.Some? {
      return;
    }
    if c.reconnect.initial <= 0 {
      return Some(BadInitialBackoff);
    }
    if c.reconnect.max <= 0 {
      return Some(BadMaxBackoff);
    }
    if c.reconnect.max < c.reconnect.initial {
      return Some(MaxBelowInitial);
    }
    return None;
  }

  /** ServiceNames: every configured name once, in any order. */
  method ServiceNames(c: ClientConfig) returns (out: seq<Str>)
    ensures NoDup(out)
    ensures forall n :: n in out <==> n in c.services
  {
    out := [];
    var left := c.services.Keys;
    while left != {}
      invariant left <= c.services.Keys
      invariant NoDup(out)
      invariant forall n :: n in out <==> n in c.services && n !in left
      decreases |left|
    {
      var name :| name in left;
      out := out + [name];
      left := left - {name};
    }
  }
}
