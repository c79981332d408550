/** From the address in a quick-docker spec to the backend in the same spec. */
module EndToEnd {
  import opened Bytes
  import opened QuickSpec
  import opened QuickGenerate
  import Config
  import Handshake
  import Deployment
  import SessionMachine
  import ServerGuarantees
  import ServiceGuarantees
  import Relay
  import Cidr

  /** The generated server puts each service of the spec where the spec says. */
  lemma GeneratedLookup(parse: Cidr.Parser, spec: Spec, edKey: Str, pqKey: Str, c: Config.ServerConfig,
                        idx: Handshake.Index, p: SessionMachine.Params, n: Str)
    requires IsServerOf(spec, edKey, pqKey, c) && Deployment.Deployed(parse, c, idx, p) && n in spec.services
    ensures SessionMachine.Lookup(p, spec.id, n) == Some(ServerListen(spec, spec.services[n]))
  {
    var j := ServiceHasPlace(spec, edKey, pqKey, c, n);
    Deployment.AddressOfPlaced(parse, c, idx, p, 0, j);
  }

  /** The generated server has no allowlists, so its services are open to everybody. */
  lemma GeneratedAdmits(parse: Cidr.Parser, parseAddr: Cidr.AddrParser, spec: Spec, edKey: Str, pqKey: Str,
                        c: Config.ServerConfig, idx: Handshake.Index, p: SessionMachine.Params, n: Str, user: Str)
    requires IsServerOf(spec, edKey, pqKey, c) && Deployment.Deployed(parse, c, idx, p) && n in spec.services
    requires Deployment.AdmitsByList(parse, parseAddr, idx, p)
    ensures p.admits(spec.id, n, user)
  {
    GeneratedLookup(parse, spec, edKey, pqKey, c, idx, p, n);
    assert spec.id in idx.allowed && n in idx.allowed[spec.id];
    var i, j := Deployment.EntryOfIndexed(parse, c, idx, spec.id, n);
    var m := PlaceIsService(spec, edKey, pqKey, c, i, j);
    assert Deployment.AdmitsUser(parse, parseAddr, idx, spec.id, n, user);
  }

  /** The user's steps, and the header that they write. */
  ghost predicate HeaderNames(p: SessionMachine.Params, s: SessionMachine.State, l: nat, user: Str, client: Str, name: Str)
    requires l < |s.listeners| && s.listeners[l].owner < |s.handlers|
  {
    var run := [SessionMachine.UserArrives(l, user), SessionMachine.Serve(|s.proxies|, SessionMachine.TakeSlot),
                SessionMachine.Serve(|s.proxies|, SessionMachine.StreamOk),
                SessionMachine.Serve(|s.proxies|, SessionMachine.HeaderOk)];
    && SessionMachine.ValidRun(p, s, run)
    && SessionMachine.Exec(p, s, run).headers == s.headers + [SessionMachine.Header(s.listeners[l].owner, name, user)]
    && s.handlers[s.listeners[l].owner].client == client
  }

  /** A user who dials the address that a deployed server has open for a service of the spec gets a
    * stream of the spec's client with a header for that very service. */
  lemma DialledServiceIsOpened(parse: Cidr.Parser, parseAddr: Cidr.AddrParser, spec: Spec, edKey: Str, pqKey: Str, c: Config.ServerConfig,
                               idx: Handshake.Index, p: SessionMachine.Params, s: SessionMachine.State, n: Str, l: nat, user: Str)
    requires IsServerOf(spec, edKey, pqKey, c) && Deployment.Deployed(parse, c, idx, p) && n in spec.services
    requires SessionMachine.Reachable(p, s) && l < |s.listeners| && s.listeners[l].open && s.listeners[l].watched
    requires s.listeners[l].owner < |s.handlers| && s.listeners[l].addr == ServerListen(spec, spec.services[n])
    requires s.handlers[s.listeners[l].owner].slots < p.maxStreams && !s.handlers[s.listeners[l].owner].muxClosed
    requires Deployment.AdmitsByList(parse, parseAddr, idx, p)
    ensures HeaderNames(p, s, l, user, spec.id, n)
  {
    var y := s.listeners[l];
    GeneratedLookup(parse, spec, edKey, pqKey, c, idx, p, n);
    ServerGuarantees.ListenerOwnership(p, s, l);
    Deployment.DeployedAddressesUnique(parse, c, idx, p, spec.id, n, s.handlers[y.owner].client, y.service);
    GeneratedAdmits(parse, parseAddr, spec, edKey, pqKey, c, idx, p, n, user);
    ServiceGuarantees.UserSteps(p, s, l, user);
  }

  /** And the generated client connects a stream with a header for a service of the spec to the backend
    * that the spec gives that service. */
  lemma OpenedServiceReachesBackend(spec: Spec, digest: Str, c: Config.ClientConfig, n: Str, k: Relay.Tunnel, s: Relay.State)
    requires IsClientOf(spec, digest, c) && n in spec.services
    requires Relay.WellFormed(k) && k.service == n && k.services == c.services
    requires Relay.Reachable(k, s) && s.client.Connected?
    ensures s.client.target == spec.services[n].client
  {
    Relay.HeaderStaysOut(k, s);
  }
}
