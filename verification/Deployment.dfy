/** A configuration put to work: what validation and the indexes of NewServer give the server's
  * step system. */
module Deployment {
  import opened Bytes
  import opened Config
  import opened Handshake
  import opened SessionMachine
  import opened SessionInvariants
  import opened Handover
  import opened Collisions
  import opened CollisionRuns
  import opened Agreement
  import ServerGuarantees
  import Cidr

  /** What the goroutines read of the configuration; `clash` is the operating system's. */
  function ParamsOf(idx: Index, maxStreams: nat, control: Str, clash: (Str, Str) -> bool, admits: (Str, Str, Str) -> bool): (p: Params)
  {
    Params(map c | c in idx.allowed :: map n | n in idx.allowed[c] :: idx.allowed[c][n].listen, maxStreams, control, clash, admits)
  }

  /** cidrAllowed with the list of a client's service. */
  predicate AdmitsUser(parse: Cidr.Parser, parseAddr: Cidr.AddrParser, idx: Index, client: Str, name: Str, user: Str)
  {
    client in idx.allowed && name in idx.allowed[client]
    && Cidr.Admits(parse, parseAddr, idx.allowed[client][name].cidrs, user)
  }

  ghost predicate AdmitsByList(parse: Cidr.Parser, parseAddr: Cidr.AddrParser, idx: Index, p: Params)
  {
    forall client, name, user :: p.admits(client, name, user) == AdmitsUser(parse, parseAddr, idx, client, name, user)
  }

  ghost predicate Deployed(parse: Cidr.Parser, c: ServerConfig, idx: Index, p: Params)
  {
    ValidServer(parse, c) && Indexes(c.clients, idx) && p == ParamsOf(idx, c.limits.maxStreams, c.listen, p.clash, p.admits)
  }

  /** The service at (i, j) of the configuration, by its client, name and address. */
  ghost predicate Places(clients: seq<ClientEntry>, i: int, j: int, id: Str, name: Str, addr: Str)
  {
    && At(clients, i, j) && clients[i].id == id
    && clients[i].services[j].name == name && clients[i].services[j].listen == addr
  }

  /** Validate, then NewServer: it fails exactly on an invalid configuration, a certificate that does
    * not load, or a key that does not decode. */
  method Deploy(parse: Cidr.Parser, parseAddr: Cidr.AddrParser, c: ServerConfig, certLoads: bool, clash: (Str, Str) -> bool)
    returns (r: Option<(Index, Params)>)
    ensures r.Some? <==> ValidServer(parse, c) && certLoads && AllDecode(c.clients, |c.clients|)
    ensures r.Some? ==> Deployed(parse, c, r.value.0, r.value.1) && r.value.1.clash == clash
    ensures r.Some? ==> AdmitsByList(parse, parseAddr, r.value.0, r.value.1)
  {
    var err := ValidateServer(parse, c);
    if err.Some? {
      return None;
    }
    if !certLoads {
      return None;
    }
    var idx := NewIndex(c.clients);
    if idx.None? {
      return None;
    }
    var i := idx.value;
    var admits := (client, name, user) => AdmitsUser(parse, parseAddr, i, client, name, user);
    return Some((i, ParamsOf(i, c.limits.maxStreams, c.listen, clash, admits)));
  }

  lemma OnlyOfItsName(services: seq<ServiceEntry>, m: map<Str, ServiceEntry>, j: nat)
    requires UniqueNames(services) && MapsServices(services, |services|, m) && j < |services|
    ensures services[j].name in m && m[services[j].name] == services[j]
  {
    var name := services[j].name;
    assert name in m;
    var k :| LastService(services, |services|, name, k) && m[name] == services[k];
  }

  lemma AddressOfPlaced(parse: Cidr.Parser, c: ServerConfig, idx: Index, p: Params, i: int, j: int)
    requires Deployed(parse, c, idx, p) && At(c.clients, i, j)
    ensures Lookup(p, c.clients[i].id, c.clients[i].services[j].name) == Some(c.clients[i].services[j].listen)
  {
    var e := c.clients[i];
    ClientIsIndexed(parse, c, idx, i);
    OnlyOfItsName(e.services, idx.allowed[e.id], j);
    LookupOfIndexed(idx, p, e.id, e.services[j].name);
  }

  lemma LookupOfIndexed(idx: Index, p: Params, id: Str, name: Str)
    requires p == ParamsOf(idx, p.maxStreams, p.control, p.clash, p.admits) && id in idx.allowed && name in idx.allowed[id]
    ensures Lookup(p, id, name) == Some(idx.allowed[id][name].listen)
  {}

  lemma ClientIsIndexed(parse: Cidr.Parser, c: ServerConfig, idx: Index, i: int)
    requires ValidServer(parse, c) && Indexes(c.clients, idx) && 0 <= i < |c.clients|
    ensures var e := c.clients[i];
            UniqueNames(e.services) && e.id in idx.allowed && MapsServices(e.services, |e.services|, idx.allowed[e.id])
  {
    assert LastClient(c.clients, |c.clients|, i);
    assert ClientOk(parse, c.clients[i]);
  }

  lemma PlaceOfAddress(parse: Cidr.Parser, c: ServerConfig, idx: Index, p: Params, id: Str, name: Str)
    returns (i: int, j: int)
    requires Deployed(parse, c, idx, p) && Lookup(p, id, name).Some?
    ensures Places(c.clients, i, j, id, name, Lookup(p, id, name).value)
  {
    FoundIsIndexed(c.clients, idx, id);
    i := FindClient(c.clients, id);
    var e := c.clients[i];
    j :| LastService(e.services, |e.services|, name, j) && idx.allowed[id][name] == e.services[j];
  }

  /** The listen address a session looks up is the configured one, and nothing else can be looked up. */
  lemma LookupIsConfigured(parse: Cidr.Parser, c: ServerConfig, idx: Index, p: Params, id: Str, name: Str, addr: Str)
    requires Deployed(parse, c, idx, p)
    ensures Lookup(p, id, name) == Some(addr) <==> exists i, j :: Places(c.clients, i, j, id, name, addr)
  {
    if Lookup(p, id, name) == Some(addr) {
      var i, j := PlaceOfAddress(parse, c, idx, p, id, name);
    }
    if i, j :| Places(c.clients, i, j, id, name, addr) {
      AddressOfPlaced(parse, c, idx, p, i, j);
    }
  }

  /** Validation makes the addresses of different services different texts. */
  lemma DeployedAddressesUnique(parse: Cidr.Parser, c: ServerConfig, idx: Index, p: Params, id: Str, n: Str, id': Str, n': Str)
    requires Deployed(parse, c, idx, p) && Lookup(p, id, n).Some? && Lookup(p, id', n') == Lookup(p, id, n)
    ensures id == id' && n == n'
  {
    var i, j := PlaceOfAddress(parse, c, idx, p, id, n);
    var i', j' := PlaceOfAddress(parse, c, idx, p, id', n');
  }

  // ------------------------------------------------------------ which configurations can bind

  /** No service is in the way of the control listener. */
  ghost predicate ClearOfControl(p: Params, c: ServerConfig)
  {
    forall i, j :: At(c.clients, i, j) ==> !Conflict(p, c.listen, c.clients[i].services[j].listen)
  }

  /** No two services are in each other's way. */
  ghost predicate ClearOfEachOther(p: Params, c: ServerConfig)
  {
    forall i, j, i', j' :: At(c.clients, i, j) && At(c.clients, i', j') && (i != i' || j != j') ==>
      !Conflict(p, c.clients[i].services[j].listen, c.clients[i'].services[j'].listen)
  }

  lemma ControlApartIff(parse: Cidr.Parser, c: ServerConfig, idx: Index, p: Params)
    requires Deployed(parse, c, idx, p)
    ensures ControlApart(p) <==> ClearOfControl(p, c)
  {
    if ClearOfControl(p, c) {
      forall id, n | Lookup(p, id, n).Some? ensures !Conflict(p, p.control, Lookup(p, id, n).value) {
        var i, j := PlaceOfAddress(parse, c, idx, p, id, n);
      }
    }
    if ControlApart(p) {
      forall i, j | At(c.clients, i, j) ensures !Conflict(p, c.listen, c.clients[i].services[j].listen) {
        AddressOfPlaced(parse, c, idx, p, i, j);
      }
    }
  }

  /** Positions of one client and name are one position. */
  lemma OnePlace(parse: Cidr.Parser, c: ServerConfig, i: int, j: int, i': int, j': int)
    requires ValidServer(parse, c) && At(c.clients, i, j) && At(c.clients, i', j')
    requires c.clients[i].id == c.clients[i'].id && c.clients[i].services[j].name == c.clients[i'].services[j'].name
    ensures i == i' && j == j'
  {
    assert ClientOk(parse, c.clients[i]);
  }

  lemma LookupsApart(parse: Cidr.Parser, c: ServerConfig, idx: Index, p: Params, id: Str, n: Str, id': Str, n': Str)
    requires Deployed(parse, c, idx, p) && ClearOfEachOther(p, c) && Lookup(p, id, n).Some? && Lookup(p, id', n').Some?
    requires Conflict(p, Lookup(p, id, n).value, Lookup(p, id', n').value)
    ensures id == id' && n == n'
  {
    var i, j := PlaceOfAddress(parse, c, idx, p, id, n);
    var i', j' := PlaceOfAddress(parse, c, idx, p, id', n');
    assert i == i' && j == j';
  }

  lemma PlacesApart(parse: Cidr.Parser, c: ServerConfig, idx: Index, p: Params, i: int, j: int, i': int, j': int)
    requires Deployed(parse, c, idx, p) && ServicesApart(p) && At(c.clients, i, j) && At(c.clients, i', j')
    requires Conflict(p, c.clients[i].services[j].listen, c.clients[i'].services[j'].listen)
    ensures i == i' && j == j'
  {
    AddressOfPlaced(parse, c, idx, p, i, j);
    AddressOfPlaced(parse, c, idx, p, i', j');
    OnePlace(parse, c, i, j, i', j');
  }

  lemma ServicesApartIff(parse: Cidr.Parser, c: ServerConfig, idx: Index, p: Params)
    requires Deployed(parse, c, idx, p)
    ensures ServicesApart(p) <==> ClearOfEachOther(p, c)
  {
    if ClearOfEachOther(p, c) {
      forall id, n, id', n' | Lookup(p, id, n).Some? && Lookup(p, id', n').Some?
                              && Conflict(p, Lookup(p, id, n).value, Lookup(p, id', n').value)
        ensures id == id' && n == n'
      {
        LookupsApart(parse, c, idx, p, id, n, id', n');
      }
    }
    if ServicesApart(p) {
      EachOtherApart(parse, c, idx, p);
    }
  }

  lemma EachOtherApart(parse: Cidr.Parser, c: ServerConfig, idx: Index, p: Params)
    requires Deployed(parse, c, idx, p) && ServicesApart(p)
    ensures ClearOfEachOther(p, c)
  {
    forall i, j, i', j' | At(c.clients, i, j) && At(c.clients, i', j') && (i != i' || j != j')
      ensures !Conflict(p, c.clients[i].services[j].listen, c.clients[i'].services[j'].listen)
    {
      if Conflict(p, c.clients[i].services[j].listen, c.clients[i'].services[j'].listen) {
        PlacesApart(parse, c, idx, p, i, j, i', j');
      }
    }
  }

  /** In a run in which every session ends its listen loop before its client's next one registers, no
    * bind of distinct names under a validated configuration meets a service listener at its address. */
  lemma CleanHandover(parse: Cidr.Parser, c: ServerConfig, idx: Index, p: Params, s: State, h: nat, l: nat)
    requires Deployed(parse, c, idx, p) && CleanlyReached(p, s)
    requires h < |s.handlers| && Wanted(p, s.handlers[h]).Some? && NoDup(s.handlers[h].requested)
    requires l < |s.listeners| && s.listeners[l].open
    ensures s.listeners[l].addr != Wanted(p, s.handlers[h]).value
  {
    CleanlyIsClearly(p, s);
    PairReached(p, s);
    BlockedBy(p, s, h, l);
    assert ListenerOk(p, s, l);
    var x, y := s.handlers[h], s.listeners[l];
    if y.addr == Wanted(p, x).value {
      DeployedAddressesUnique(parse, c, idx, p, s.handlers[y.owner].client, y.service, x.client, x.requested[x.pc.i]);
    }
  }

  /** For a deployed configuration, every bind of distinct names in clear runs is possible if and only
    * if no service address conflicts with the control address or with another service's. */
  lemma DeployedBindsIff(parse: Cidr.Parser, c: ServerConfig, idx: Index, p: Params)
    requires Deployed(parse, c, idx, p)
    ensures AllBindsPossible(p) <==> ClearOfControl(p, c) && ClearOfEachOther(p, c)
  {
    ControlApartIff(parse, c, idx, p);
    ServicesApartIff(parse, c, idx, p);
    AllBindsPossibleIff(p);
  }

  /** Validation does not see it: any valid configuration stays valid when its control address is
    * moved onto one of its services, whatever the operating system makes of other addresses. */
  lemma ControlOnServicePasses(parse: Cidr.Parser, c: ServerConfig, i: int, j: int)
    requires ValidServer(parse, c) && At(c.clients, i, j)
    ensures var d := c.(listen := c.clients[i].services[j].listen);
            ValidServer(parse, d) && forall p :: !ClearOfControl(p, d)
  {
    assert ClientOk(parse, c.clients[i]);
    var d := c.(listen := c.clients[i].services[j].listen);
    assert At(d.clients, i, j) && ServiceOk(parse, d.clients[i].services[j]);
  }

  /** An accepted session never comes to a requested name it has no address for. */
  lemma AcceptedNamesHaveAddresses(parse: Cidr.Parser, c: ServerConfig, idx: Index, w: Setup, s: Sys, h: nat)
    requires Deployed(parse, c, idx, w.p) && w.clients == c.clients && Reached(w, s)
    requires h < |s.m.handlers| && InLoop(s.m.handlers[h])
    ensures Wanted(w.p, s.m.handlers[h]).Some?
  {
    SysReached(w, s);
    var x := s.m.handlers[h];
    assert PastIsAccepted(s, h);
    assert AcceptedOk(w, s, h);
    assert Offers(EntryOf(w, x.client), x.requested[x.pc.i]);
    var i := FindClient(w.clients, x.client);
    var j :| 0 <= j < |w.clients[i].services| && w.clients[i].services[j].name == x.requested[x.pc.i];
    AddressOfPlaced(parse, c, idx, w.p, i, j);
  }

  // ------------------------------------------------------------ clear traces

  ghost predicate ClearEvent(w: Setup, s: Sys, e: Event)
  {
    e.Machine? ==> ClearStep(w.p, s.m, e.step)
  }

  /** A trace in which every session starts when the older ones have let go of what it asks for. */
  ghost predicate ClearTrace(w: Setup, s: Sys, es: seq<Event>, t: Sys)
    decreases |es|
  {
    if es == [] then s == t
    else Possible(w, s, es[0]) && ClearEvent(w, s, es[0]) && ClearTrace(w, Happen(w, s, es[0]), es[1..], t)
  }

  ghost predicate ReachedClearly(w: Setup, s: Sys)
  {
    exists es :: ClearTrace(w, START, es, s)
  }

  lemma ClearEventProjects(w: Setup, s: Sys, e: Event)
    requires ClearlyReached(w.p, s.m) && Possible(w, s, e) && ClearEvent(w, s, e)
    ensures ClearlyReached(w.p, Happen(w, s, e).m)
  {
    match e
    case Machine(step) => ClearGo(w.p, s.m, step);
    case AuthArrives(h, ca, now) =>
      ClearGo(w.p, s.m, Handle(h, Private(HandshakeOk(ca.id, ca.requested))));
      ClearGo(w.p, s.m, Handle(h, Private(HandshakeFails)));
    case _ =>
  }

  lemma {:induction false} ClearTraceProjects(w: Setup, s: Sys, es: seq<Event>, t: Sys)
    requires ClearlyReached(w.p, s.m) && ClearTrace(w, s, es, t)
    ensures Trace(w, s, es, t) && ClearlyReached(w.p, t.m)
    decreases |es|
  {
    if es != [] {
      ClearEventProjects(w, s, es[0]);
      ClearTraceProjects(w, Happen(w, s, es[0]), es[1..], t);
    }
  }

  /** A clear trace is a trace, and what it does to the server is a clear run. */
  lemma ClearlyReachedBoth(w: Setup, s: Sys)
    requires ReachedClearly(w, s)
    ensures Reached(w, s) && ClearlyReached(w.p, s.m)
  {
    var es :| ClearTrace(w, START, es, s);
    assert ClearlyReached(w.p, INIT) by {
      assert ClearRun(w.p, INIT, []) && ValidRun(w.p, INIT, []) && Exec(w.p, INIT, []) == INIT;
    }
    ClearTraceProjects(w, START, es, s);
  }

  /** A client whose ML-DSA key is in the hands of its owner asks for distinct names. */
  lemma OwnersAskOnce(w: Setup, s: Sys, h: nat)
    requires Reached(w, s) && h in s.accepted && h < |s.m.handlers| && s.accepted[h].pqSignature.PqMade?
    requires var key := s.accepted[h].pqSignature.key; key !in w.corruptPq && key in w.owners
    ensures NoDup(s.m.handlers[h].requested)
  {
    OwnerAgreement(w, s, h);
    SysReached(w, s);
    assert AcceptedOk(w, s, h);
  }

  /** With a validated configuration whose services are clear of each other, for any number of
    * reconnects that are clear: the next bind of a client that asks for distinct names is possible
    * exactly when its address does not conflict with the control address. */
  lemma ReconnectBindsIff(parse: Cidr.Parser, c: ServerConfig, idx: Index, w: Setup, s: Sys, h: nat)
    requires Deployed(parse, c, idx, w.p) && w.clients == c.clients && ClearOfEachOther(w.p, c)
    requires ReachedClearly(w, s) && !s.m.ctxDone
    requires h < |s.m.handlers| && InLoop(s.m.handlers[h]) && NoDup(s.m.handlers[h].requested)
    ensures var addr := Wanted(w.p, s.m.handlers[h]);
            addr.Some? && (Enabled(w.p, s.m, Handle(h, BindOk)) <==> !Conflict(w.p, c.listen, addr.value))
  {
    ClearlyReachedBoth(w, s);
    AcceptedNamesHaveAddresses(parse, c, idx, w, s, h);
    ServicesApartIff(parse, c, idx, w.p);
    BindPossibleIff(w.p, s.m, h);
  }

  /** Every stream that was ever opened was opened for a user who is in the union of the ranges that the
    * configuration lists for the very service, if it lists any. */
  lemma OnlyListedUsersGetThrough(parse: Cidr.Parser, parseAddr: Cidr.AddrParser, c: ServerConfig, idx: Index, p: Params,
                                  s: State, k: nat) returns (i: int, j: int)
    requires Deployed(parse, c, idx, p) && AdmitsByList(parse, parseAddr, idx, p) && Reachable(p, s) && k < |s.headers|
    requires Cidr.Sound(parse) && Cidr.SoundAddr(parseAddr)
    ensures At(c.clients, i, j) && s.headers[k].owner < |s.handlers|
    ensures c.clients[i].id == s.handlers[s.headers[k].owner].client && c.clients[i].services[j].name == s.headers[k].service
    ensures var cidrs, a := c.clients[i].services[j].cidrs, Cidr.RemoteAddr(parseAddr, s.headers[k].user);
            Cidr.AllParse(parse, cidrs) && (cidrs == [] || (a.Some? && Cidr.InUnion(parse, cidrs, a.value)))
  {
    ServerGuarantees.HeadersNameRequested(p, s, k);
    var header := s.headers[k];
    var client := s.handlers[header.owner].client;
    assert AdmitsUser(parse, parseAddr, idx, client, header.service, header.user);
    i, j := EntryOfIndexed(parse, c, idx, client, header.service);
    assert ClientOk(parse, c.clients[i]) && ServiceOk(parse, c.clients[i].services[j]);
    Cidr.AdmitsIsUnion(parse, parseAddr, c.clients[i].services[j].cidrs, header.user);
  }

  lemma EntryOfIndexed(parse: Cidr.Parser, c: ServerConfig, idx: Index, id: Str, name: Str) returns (i: int, j: int)
    requires ValidServer(parse, c) && Indexes(c.clients, idx) && id in idx.allowed && name in idx.allowed[id]
    ensures At(c.clients, i, j) && c.clients[i].id == id && c.clients[i].services[j].name == name
    ensures idx.allowed[id][name] == c.clients[i].services[j]
  {
    FoundIsIndexed(c.clients, idx, id);
    i := FindClient(c.clients, id);
    var e := c.clients[i];
    j :| LastService(e.services, |e.services|, name, j) && idx.allowed[id][name] == e.services[j];
  }

  /** A session never has more streams open than the configuration allows a client. */
  lemma StreamsWithinLimit(parse: Cidr.Parser, c: ServerConfig, idx: Index, p: Params, s: State, h: nat)
    requires Deployed(parse, c, idx, p) && Reachable(p, s) && h < |s.handlers|
    ensures |ServerGuarantees.SlotHolders(s.proxies, h)| <= c.limits.maxStreams
  {
    ServerGuarantees.StreamSlots(p, s, h);
  }

  /** Every open service listener is a service of the configuration, at its configured address, and
    * its client signed for it on the connection the listener came from. */
  lemma ListenerIsConfigured(parse: Cidr.Parser, c: ServerConfig, idx: Index, w: Setup, s: Sys, l: nat)
    requires Deployed(parse, c, idx, w.p) && w.clients == c.clients && Reached(w, s)
    requires l < |s.m.listeners| && s.m.listeners[l].open
    ensures var y := s.m.listeners[l];
            && y.owner in s.accepted && y.owner in s.hellos
            && (exists i, j :: Places(c.clients, i, j, s.accepted[y.owner].id, y.service, y.addr))
            && PqAgreed(w, s, s.hellos[y.owner], s.accepted[y.owner])
  {
    ListenerIsAuthorised(w, s, l);
    SysReached(w, s);
    ServerGuarantees.ListenerOwnership(w.p, s.m, l);
    var y := s.m.listeners[l];
    assert AcceptedOk(w, s, y.owner);
    LookupIsConfigured(parse, c, idx, w.p, s.accepted[y.owner].id, y.service, y.addr);
  }
}
