/** What holds in every reachable state of the server, in the terms of server.go. */
module ServerGuarantees {
  import opened Bytes
  import opened SessionMachine
  import opened SessionInvariants

  /** An open service listener belongs to a session that has registered and whose removeSession has
    * not returned, and it sits at the address the client's allowlist gives a service that the
    * client asked for. */
  lemma ListenerOwnership(p: Params, s: State, l: nat)
    requires Reachable(p, s) && l < |s.listeners| && s.listeners[l].open
    ensures var y := s.listeners[l];
            && y.owner < |s.handlers|
            && Entered(s.handlers[y.owner].pc) && !RemovalDone(s.handlers[y.owner].pc)
            && y.service in s.handlers[y.owner].requested
            && Lookup(p, s.handlers[y.owner].client, y.service) == Some(y.addr)
  {
    InvReachable(p, s);
    assert ListenerOk(p, s, l);
  }

  /** Once removeSession has returned, none of the session's listeners is open, whatever its
    * successor did in the middle of its listen loop. */
  lemma RemovedSessionIsSilent(p: Params, s: State, h: nat, l: nat)
    requires Reachable(p, s) && h < |s.handlers| && RemovalDone(s.handlers[h].pc)
    requires l < |s.listeners| && s.listeners[l].owner == h
    ensures !s.listeners[l].open && forall user :: !Enabled(p, s, UserArrives(l, user))
  {
    if s.listeners[l].open {
      ListenerOwnership(p, s, l);
    }
  }

  /** No two open listeners are at conflicting addresses, let alone at the same one. */
  lemma AddressesExclusive(p: Params, s: State, l: nat, m: nat)
    requires Reachable(p, s) && l < |s.listeners| && m < |s.listeners| && l != m
    requires s.listeners[l].open && s.listeners[m].open
    ensures !Conflict(p, s.listeners[l].addr, s.listeners[m].addr) && s.listeners[l].addr != s.listeners[m].addr
  {
    InvReachable(p, s);
    var a, b := if l < m then l else m, if l < m then m else l;
    assert 0 <= a < b < |s.listeners|;
  }

  /** sessions[c] exists exactly when the most recently registered session of c has not removed
    * itself, and it is that session. */
  lemma RegistrySafety(p: Params, s: State, c: Str)
    requires Reachable(p, s)
    ensures c in s.registry <==>
            LogOf(s, c) != [] && var n := LogOf(s, c)[|LogOf(s, c)| - 1]; n < |s.handlers| && !Unregistered(s.handlers[n].pc)
    ensures c in s.registry ==> s.registry[c] == LogOf(s, c)[|LogOf(s, c)| - 1] && s.handlers[s.registry[c]].client == c
  {
    InvReachable(p, s);
    assert LogOk(s, c) && RegistryOk(s, c);
  }

  /** A removal takes away the registry entry of its client exactly when the session is the newest
    * of that client: a displaced session never evicts its successor. */
  lemma LateRemovalIsHarmless(p: Params, s: State, h: nat)
    requires Reachable(p, s) && Enabled(p, s, Handle(h, LockRegistry))
    ensures var c := s.handlers[h].client;
            Apply(p, s, Handle(h, LockRegistry)).registry
            == if Newest(s, c) == Some(h) then s.registry - {c} else s.registry
  {
    InvReachable(p, s);
    var c := s.handlers[h].client;
    assert LogOk(s, c) && RegistryOk(s, c) && LoggedOk(s, h);
    assert c !in s.registry ==> s.registry - {c} == s.registry;
  }

  ghost function HolderSet(hs: seq<Handler>): (r: set<nat>)
  {
    set h: nat | h < |hs| && HoldsToken(hs[h])
  }

  lemma {:induction false} HoldersAreCounted(hs: seq<Handler>)
    ensures Holders(hs) == |HolderSet(hs)|
  {
    if hs == [] {
      assert HolderSet(hs) == {};
    } else {
      var n := |hs| - 1;
      HoldersAreCounted(hs[..n]);
      assert HolderSet(hs) == HolderSet(hs[..n]) + (if HoldsToken(hs[n]) then {n} else {});
    }
  }

  /** Slots of handshakeSem in use are the handlers that hold one, at most 64. A handler has given
    * back its token once or not at all, exactly once when it is done or serves a session, and a
    * session holds none. */
  lemma TokenConservation(p: Params, s: State)
    requires Reachable(p, s)
    ensures s.tokens == |HolderSet(s.handlers)| <= 64
    ensures forall h :: 0 <= h < |s.handlers| ==>
              var x := s.handlers[h];
              && x.releases == (if HoldsToken(x) then 0 else 1)
              && (x.pc.Done? || (Entered(x.pc) && !x.pc.Exiting?) ==> !HoldsToken(x))
  {
    InvReachable(p, s);
    HoldersAreCounted(s.handlers);
    forall h | 0 <= h < |s.handlers|
      ensures var x := s.handlers[h];
              x.releases == (if HoldsToken(x) then 0 else 1) && (x.pc.Done? || (Entered(x.pc) && !x.pc.Exiting?) ==> !HoldsToken(x))
    {
      assert FlagsOk(s.handlers[h]);
    }
  }

  /** A handler that comes to a receive from handshakeSem, on any path, finds it non-empty. */
  lemma ReleaseNeverBlocks(p: Params, s: State, h: nat)
    requires Reachable(p, s) && h < |s.handlers|
    ensures s.handlers[h].pc.SettingUp? ==> Enabled(p, s, Handle(h, ReleaseToken))
    ensures s.handlers[h].pc.Exiting? ==> Enabled(p, s, Handle(h, Exit))
  {
    InvReachable(p, s);
    assert FlagsOk(s.handlers[h]);
    if HoldsToken(s.handlers[h]) {
      HolderCounts(s.handlers, h);
    }
  }

  ghost function SlotHolders(ps: seq<Proxy>, h: nat): (r: set<nat>)
  {
    set x: nat | x < |ps| && HoldsSlot(ps[x], h)
  }

  lemma {:induction false} SlotHoldersAreCounted(ps: seq<Proxy>, h: nat)
    ensures Active(ps, h) == |SlotHolders(ps, h)|
  {
    if ps == [] {
      assert SlotHolders(ps, h) == {};
    } else {
      var n := |ps| - 1;
      SlotHoldersAreCounted(ps[..n], h);
      assert SlotHolders(ps, h) == SlotHolders(ps[..n], h) + (if HoldsSlot(ps[n], h) then {n} else {});
    }
  }

  /** Slots of a session's streamSem in use are its proxyUser calls between acquire and release,
    * never more than the configured maximum, and the release never blocks. */
  lemma StreamSlots(p: Params, s: State, h: nat)
    requires Reachable(p, s) && h < |s.handlers|
    ensures s.handlers[h].slots == |SlotHolders(s.proxies, h)| <= p.maxStreams
    ensures forall x: nat :: x < |s.proxies| && s.proxies[x].owner == h && s.proxies[x].pc.Releasing? ==>
              Enabled(p, s, Serve(x, ReleaseSlot))
  {
    InvReachable(p, s);
    SlotHoldersAreCounted(s.proxies, h);
    forall x: nat | x < |s.proxies| && s.proxies[x].owner == h && s.proxies[x].pc.Releasing?
      ensures Enabled(p, s, Serve(x, ReleaseSlot))
    {
      HolderIsActive(s.proxies, x, h);
    }
  }

  /** Every Open header names a service that its session's client requested, and was written for a
    * user whom the allowlist of that service admits. */
  lemma HeadersNameRequested(p: Params, s: State, k: nat)
    requires Reachable(p, s) && k < |s.headers|
    ensures s.headers[k].owner < |s.handlers| && s.headers[k].service in s.handlers[s.headers[k].owner].requested
    ensures p.admits(s.handlers[s.headers[k].owner].client, s.headers[k].service, s.headers[k].user)
  {
    InvReachable(p, s);
    assert Asked(p, s, s.headers[k].owner, s.headers[k].service, s.headers[k].user);
  }
}
