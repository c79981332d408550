/** What every run of the session machine keeps: tokens, registry, listeners, stream slots. */
module SessionInvariants {
  import opened Bytes
  import opened SessionMachine

  // ------------------------------------------------------------ handshake tokens

  /** The handler has taken a slot of handshakeSem and not yet given it back. */
  predicate HoldsToken(x: Handler)
  {
    x.pc.Handshaking? || x.pc.SettingUp? || (x.pc.Exiting? && x.semHeld)
  }

  function Holders(hs: seq<Handler>): (n: nat)
  {
    if hs == [] then 0
    else Holders(hs[..|hs| - 1]) + (if HoldsToken(hs[|hs| - 1]) then 1 else 0)
  }

  lemma HoldersSnoc(hs: seq<Handler>, x: Handler)
    ensures Holders(hs + [x]) == Holders(hs) + (if HoldsToken(x) then 1 else 0)
  {
    assert (hs + [x])[..|hs|] == hs;
  }

  lemma {:induction false} HoldersPut(hs: seq<Handler>, h: nat, x: Handler)
    requires h < |hs|
    ensures Holders(hs[h := x])
            == Holders(hs) - (if HoldsToken(hs[h]) then 1 else 0) + (if HoldsToken(x) then 1 else 0)
  {
    var n := |hs| - 1;
    if h == n {
      assert hs[h := x][..n] == hs[..n];
    } else {
      HoldersPut(hs[..n], h, x);
      assert hs[h := x][..n] == hs[..n][h := x];
    }
  }

  lemma {:induction false} HolderCounts(hs: seq<Handler>, h: nat)
    requires h < |hs| && HoldsToken(hs[h])
    ensures Holders(hs) >= 1
  {
    if h < |hs| - 1 {
      HolderCounts(hs[..|hs| - 1], h);
    }
  }

  /** The flag and the release count that belong to each place in the code. */
  predicate FlagsOk(x: Handler)
  {
    match x.pc
    case Handshaking => x.semHeld && x.releases == 0
    case SettingUp => x.semHeld && x.releases == 0
    case TokenReturned => x.semHeld && x.releases == 1
    case Exiting => x.releases == if x.semHeld then 0 else 1
    case Done => x.releases == 1
    case _ => !x.semHeld && x.releases == 1
  }

  ghost predicate TokenInv(s: State)
  {
    && s.tokens == Holders(s.handlers) <= MAX_PENDING_HANDSHAKES
    && forall h :: 0 <= h < |s.handlers| ==> FlagsOk(s.handlers[h])
  }

  /** Replacing a handler, and with it the token count, keeps the token invariant. */
  lemma TokenPut(s: State, t: State, h: nat, x: Handler)
    requires TokenInv(s) && h < |s.handlers| && t.handlers == s.handlers[h := x] && FlagsOk(x)
    requires t.tokens == s.tokens - (if HoldsToken(s.handlers[h]) then 1 else 0) + (if HoldsToken(x) then 1 else 0)
    requires HoldsToken(x) ==> HoldsToken(s.handlers[h])
    ensures TokenInv(t)
  {
    HoldersPut(s.handlers, h, x);
  }

  lemma {:induction false} HoldersPointwise(hs: seq<Handler>, gs: seq<Handler>)
    requires |hs| == |gs| && forall i :: 0 <= i < |hs| ==> HoldsToken(hs[i]) == HoldsToken(gs[i])
    ensures Holders(hs) == Holders(gs)
  {
    if hs != [] {
      HoldersPointwise(hs[..|hs| - 1], gs[..|gs| - 1]);
    }
  }

  lemma TokenSame(s: State, t: State)
    requires TokenInv(s) && t.tokens == s.tokens && |t.handlers| == |s.handlers|
    requires forall h :: 0 <= h < |s.handlers| ==>
               HoldsToken(s.handlers[h]) == HoldsToken(t.handlers[h]) && FlagsOk(t.handlers[h])
    ensures TokenInv(t)
  {
    HoldersPointwise(s.handlers, t.handlers);
  }

  lemma TokenDisplaced(s: State, t: State, h: nat)
    requires TokenInv(s) && h < |s.handlers| && IsDisplacing(s.handlers[h].pc) && Displaced(s, t, h)
    ensures TokenInv(t)
  {
    forall i | 0 <= i < |s.handlers|
      ensures HoldsToken(s.handlers[i]) == HoldsToken(t.handlers[i]) && FlagsOk(t.handlers[i])
    {
      assert FlagsOk(s.handlers[i]) && SameButFlags(s.handlers[i], t.handlers[i]);
    }
    TokenSame(s, t);
  }

  lemma TokenDisplace(s: State, h: nat)
    requires TokenInv(s) && h < |s.handlers| && IsDisplacing(s.handlers[h].pc)
    ensures TokenInv(DisplaceStep(s, h))
  {
    DisplaceEffect(s, h);
    TokenDisplaced(s, DisplaceStep(s, h), h);
  }

  lemma TokenMove(p: Params, x: Handler, move: Move)
    requires MoveEnabled(p, x, move) && FlagsOk(x)
    ensures FlagsOk(Moved(p, x, move)) && HoldsToken(Moved(p, x, move)) == HoldsToken(x)
  {}

  lemma TokenRelease(s: State, h: nat, pc: Pc)
    requires TokenInv(s) && h < |s.handlers| && s.tokens > 0 && HoldsToken(s.handlers[h])
    requires pc.TokenReturned? || pc.Done?
    ensures TokenInv(Release(s, h, pc))
  {
    var t := Release(s, h, pc);
    assert FlagsOk(s.handlers[h]);
    TokenPut(s, t, h, t.handlers[h]);
  }

  lemma TokenPc(s: State, t: State, h: nat, act: Act)
    requires TokenInv(s) && h < |s.handlers| && PcMoved(s, t, h)
    requires MovesOnlyPc(act) && Leads(act, s.handlers[h].pc, t.handlers[h].pc)
    ensures TokenInv(t)
  {
    assert FlagsOk(s.handlers[h]);
    TokenPut(s, t, h, t.handlers[h]);
  }

  lemma TokenAct(p: Params, s: State, h: nat, act: Act)
    requires TokenInv(s) && h < |s.handlers| && ActEnabled(p, s, h, act)
    ensures TokenInv(ActApply(p, s, h, act))
  {
    var x := s.handlers[h];
    assert FlagsOk(x);
    match act
    case Private(move) =>
      TokenMove(p, x, move);
      TokenPut(s, Put(s, h, Moved(p, x, move)), h, Moved(p, x, move));
    case Displace => TokenDisplace(s, h);
    case ReleaseToken => TokenRelease(s, h, TokenReturned);
    case Exit =>
      if x.semHeld {
        TokenRelease(s, h, Done);
      } else {
        TokenPut(s, Goto(s, h, Done), h, x.(pc := Done));
      }
    case _ =>
      PcEffect(p, s, h, act);
      TokenPc(s, ActApply(p, s, h, act), h, act);
  }

  lemma TokenDeed(p: Params, s: State, x: nat, deed: Deed)
    requires TokenInv(s) && x < |s.proxies| && DeedEnabled(s, x, deed)
    ensures TokenInv(DeedApply(p, s, x, deed))
  {
    var t := DeedApply(p, s, x, deed);
    DeedKeepsHandlers(p, s, x, deed);
    forall h | 0 <= h < |s.handlers|
      ensures HoldsToken(s.handlers[h]) == HoldsToken(t.handlers[h]) && FlagsOk(t.handlers[h])
    {
      assert FlagsOk(s.handlers[h]);
    }
    TokenSame(s, t);
  }

  lemma TokenStep(p: Params, s: State, step: Step)
    requires TokenInv(s) && Enabled(p, s, step)
    ensures TokenInv(Apply(p, s, step))
  {
    match step
    case ConnArrives => HoldersSnoc(s.handlers, NEW_HANDLER);
    case Handle(h, act) => TokenAct(p, s, h, act);
    case Serve(x, deed) => TokenDeed(p, s, x, deed);
    case _ =>
  }

  // ------------------------------------------------------------ the registry

  /** The handler has passed replaceSession. */
  predicate Entered(pc: Pc)
  {
    !(pc.Handshaking? || pc.SettingUp? || pc.TokenReturned? || pc.Registering?)
  }

  /** removeSession has dropped the handler's claim to the registry. */
  predicate Unregistered(pc: Pc)
  {
    pc.Closing? || RemovalDone(pc)
  }

  /** removeSession has returned. */
  predicate RemovalDone(pc: Pc)
  {
    pc.ClosingMux? || pc.CancellingSelf? || pc.Exiting? || pc.Done?
  }

  /** The most recently registered session of a client. */
  function Newest(s: State, client: Str): (r: Option<nat>)
  {
    var l := LogOf(s, client);
    if l == [] then None else Some(l[|l| - 1])
  }

  /** The sessions in the log of a client are that client's and have passed replaceSession. */
  ghost predicate LogOk(s: State, client: Str)
  {
    var l := LogOf(s, client);
    && NoDup(l)
    && forall i :: 0 <= i < |l| ==>
         l[i] < |s.handlers| && s.handlers[l[i]].client == client && Entered(s.handlers[l[i]].pc)
  }

  /** sessions[client] is the newest session, for as long as that session has not removed itself. */
  ghost predicate RegistryOk(s: State, client: Str)
  {
    var n := Newest(s, client);
    && (client in s.registry <==> n.Some? && n.value < |s.handlers| && !Unregistered(s.handlers[n.value].pc))
    && (client in s.registry ==> n == Some(s.registry[client]))
  }

  /** Between replaceSession and removeSession a handler is in the log of its client. */
  ghost predicate LoggedOk(s: State, h: nat)
    requires h < |s.handlers|
  {
    var x := s.handlers[h];
    Entered(x.pc) && !RemovalDone(x.pc) ==> h in LogOf(s, x.client)
  }

  ghost predicate MutexOk(s: State)
  {
    && (s.mu.Some? ==> s.mu.value < |s.handlers| && s.handlers[s.mu.value].pc.Closing?)
    && forall h :: 0 <= h < |s.handlers| && s.handlers[h].pc.Closing? ==> s.mu == Some(h)
  }

  ghost predicate RegistryInv(s: State)
  {
    && MutexOk(s)
    && (forall c :: LogOk(s, c) && RegistryOk(s, c))
    && (forall h :: 0 <= h < |s.handlers| ==> LoggedOk(s, h))
  }

  /** A handler stays on the same side of replaceSession and of removeSession. */
  ghost predicate RegistrySame(x: Handler, y: Handler)
  {
    && (Entered(x.pc) ==> y.client == x.client)
    && Entered(y.pc) == Entered(x.pc) && Unregistered(y.pc) == Unregistered(x.pc) && RemovalDone(y.pc) == RemovalDone(x.pc)
  }

  /** Nothing the registry depends on has changed except perhaps how far handlers have got. */
  ghost predicate RegistryFrame(s: State, t: State)
  {
    && t.registry == s.registry && t.log == s.log && t.mu == s.mu
    && |t.handlers| >= |s.handlers|
    && (forall h :: 0 <= h < |s.handlers| ==>
          RegistrySame(s.handlers[h], t.handlers[h]))
    && (forall h :: |s.handlers| <= h < |t.handlers| ==> !Entered(t.handlers[h].pc))
  }

  lemma RegistryFramed(s: State, t: State)
    requires RegistryInv(s) && RegistryFrame(s, t)
    ensures RegistryInv(t)
  {
    forall c ensures LogOk(t, c) && RegistryOk(t, c) {
      assert LogOk(s, c) && RegistryOk(s, c);
    }
    forall h | 0 <= h < |t.handlers| ensures LoggedOk(t, h) {
      if h < |s.handlers| {
        assert LoggedOk(s, h);
      }
    }
    assert forall h :: 0 <= h < |t.handlers| && t.handlers[h].pc.Closing? ==>
             Unregistered(s.handlers[h].pc) && !RemovalDone(s.handlers[h].pc);
    if s.mu.Some? {
      var h := s.mu.value;
      assert Unregistered(t.handlers[h].pc) && !RemovalDone(t.handlers[h].pc);
    }
  }

  lemma RegistryRegister(s: State, h: nat)
    requires RegistryInv(s) && h < |s.handlers| && s.handlers[h].pc.Registering? && s.mu.None?
    ensures RegistryInv(ReplaceSession(s, h))
  {
    var t := ReplaceSession(s, h);
    var c := s.handlers[h].client;
    assert LogOf(t, c) == LogOf(s, c) + [h];
    forall d ensures LogOk(t, d) && RegistryOk(t, d) {
      assert LogOk(s, d) && RegistryOk(s, d);
      assert h !in LogOf(s, d);
      assert d != c ==> LogOf(t, d) == LogOf(s, d);
    }
    forall g | 0 <= g < |t.handlers| ensures LoggedOk(t, g) {
      assert LoggedOk(s, g);
    }
  }

  lemma RegistryUnregister(s: State, h: nat)
    requires RegistryInv(s) && h < |s.handlers| && s.handlers[h].pc.Removing? && s.mu.None?
    ensures RegistryInv(Unregister(s, h))
  {
    var t := Unregister(s, h);
    var c := s.handlers[h].client;
    assert LoggedOk(s, h);
    forall d ensures LogOk(t, d) && RegistryOk(t, d) {
      assert LogOk(s, d) && RegistryOk(s, d);
      assert LogOf(t, d) == LogOf(s, d);
    }
    forall g | 0 <= g < |t.handlers| ensures LoggedOk(t, g) {
      assert LoggedOk(s, g);
    }
  }

  lemma RegistryUnlock(s: State, t: State, h: nat)
    requires RegistryInv(s) && h < |s.handlers| && s.handlers[h].pc.Closing?
    requires t == s.(handlers := s.handlers[h := s.handlers[h].(pc := ClosingMux)], mu := None)
    ensures RegistryInv(t)
  {
    forall d ensures LogOk(t, d) && RegistryOk(t, d) {
      assert LogOk(s, d) && RegistryOk(s, d);
      assert LogOf(t, d) == LogOf(s, d);
    }
    forall g | 0 <= g < |t.handlers| ensures LoggedOk(t, g) {
      assert LoggedOk(s, g);
    }
  }

  /** A move keeps a handler on the same side of replaceSession and of removeSession, except when
    * a handler that never registered gives up. */
  lemma RegistryMove(p: Params, x: Handler, move: Move)
    requires MoveEnabled(p, x, move)
    ensures var y := Moved(p, x, move);
            if move.HandshakeFails? || move.SetupFails?
            then !Entered(x.pc) && y == x.(pc := Exiting)
            else RegistrySame(x, y)
  {}

  lemma RegistryPut(s: State, h: nat, x: Handler)
    requires RegistryInv(s) && h < |s.handlers| && RegistrySame(s.handlers[h], x)
    ensures RegistryInv(Put(s, h, x))
  {
    RegistryFramed(s, Put(s, h, x));
  }

  lemma RegistryGiveUp(s: State, h: nat)
    requires RegistryInv(s) && h < |s.handlers| && !Entered(s.handlers[h].pc)
    ensures RegistryInv(Goto(s, h, Exiting))
  {
    var t := Goto(s, h, Exiting);
    forall d ensures LogOk(t, d) && RegistryOk(t, d) {
      assert LogOk(s, d) && RegistryOk(s, d);
      assert LogOf(t, d) == LogOf(s, d);
    }
    forall g | 0 <= g < |t.handlers| ensures LoggedOk(t, g) {
      assert LoggedOk(s, g);
    }
  }

  lemma RegistryCloseOwn(s: State, h: nat)
    requires RegistryInv(s) && h < |s.handlers| && s.handlers[h].pc.Closing?
    ensures RegistryInv(CloseOwnStep(s, h))
  {
    var t := CloseOwnStep(s, h);
    if s.handlers[h].pc.k < |s.handlers[h].listeners| {
      RegistryFramed(s, t);
    } else {
      RegistryUnlock(s, t, h);
    }
  }

  lemma RegistryPrivate(p: Params, s: State, h: nat, move: Move)
    requires RegistryInv(s) && h < |s.handlers| && MoveEnabled(p, s.handlers[h], move)
    ensures RegistryInv(Put(s, h, Moved(p, s.handlers[h], move)))
  {
    RegistryMove(p, s.handlers[h], move);
    if move.HandshakeFails? || move.SetupFails? {
      RegistryGiveUp(s, h);
    } else {
      RegistryPut(s, h, Moved(p, s.handlers[h], move));
    }
  }

  lemma RegistryDisplaced(s: State, t: State, h: nat)
    requires RegistryInv(s) && h < |s.handlers| && IsDisplacing(s.handlers[h].pc) && Displaced(s, t, h)
    ensures RegistryInv(t)
  {
    forall i | 0 <= i < |s.handlers| ensures RegistrySame(s.handlers[i], t.handlers[i]) {
      assert SameButFlags(s.handlers[i], t.handlers[i]);
    }
    RegistryFramed(s, t);
  }

  lemma RegistryDisplace(s: State, h: nat)
    requires RegistryInv(s) && h < |s.handlers| && IsDisplacing(s.handlers[h].pc)
    ensures RegistryInv(DisplaceStep(s, h))
  {
    DisplaceEffect(s, h);
    RegistryDisplaced(s, DisplaceStep(s, h), h);
  }

  lemma RegistryAct(p: Params, s: State, h: nat, act: Act)
    requires RegistryInv(s) && h < |s.handlers| && ActEnabled(p, s, h, act)
    ensures RegistryInv(ActApply(p, s, h, act))
  {
    match act
    case Private(move) => RegistryPrivate(p, s, h, move);
    case Register => RegistryRegister(s, h);
    case LockRegistry => RegistryUnregister(s, h);
    case CloseOwn => RegistryCloseOwn(s, h);
    case Displace => RegistryDisplace(s, h);
    case _ => RegistryOther(p, s, h, act);
  }

  lemma RegistryOther(p: Params, s: State, h: nat, act: Act)
    requires RegistryInv(s) && h < |s.handlers| && ActEnabled(p, s, h, act)
    requires act.ReleaseToken? || act.BindOk? || act.Spawn? || act.Exit?
    ensures RegistryInv(ActApply(p, s, h, act))
  {
    var t := ActApply(p, s, h, act);
    RegistryOwn(s, t, h);
  }

  lemma RegistryOwn(s: State, t: State, h: nat)
    requires RegistryInv(s) && h < |s.handlers| && |t.handlers| == |s.handlers|
    requires t.handlers == s.handlers[h := t.handlers[h]] && RegistrySame(s.handlers[h], t.handlers[h])
    requires t.registry == s.registry && t.log == s.log && t.mu == s.mu
    ensures RegistryInv(t)
  {
    RegistryFramed(s, t);
  }

  lemma RegistryDeed(p: Params, s: State, x: nat, deed: Deed)
    requires RegistryInv(s) && x < |s.proxies| && DeedEnabled(s, x, deed)
    ensures RegistryInv(DeedApply(p, s, x, deed))
  {
    DeedKeepsHandlers(p, s, x, deed);
    RegistryFramed(s, DeedApply(p, s, x, deed));
  }

  lemma RegistryStep(p: Params, s: State, step: Step)
    requires RegistryInv(s) && Enabled(p, s, step)
    ensures RegistryInv(Apply(p, s, step))
  {
    match step
    case Handle(h, act) => RegistryAct(p, s, h, act);
    case Serve(x, deed) => RegistryDeed(p, s, x, deed);
    case _ => RegistryFramed(s, Apply(p, s, step));
  }

  // ------------------------------------------------------------ listeners

  /** How many requested names the listen loop has dealt with. */
  function NextPos(x: Handler): (n: nat)
  {
    if x.pc.Listening? then x.pc.i
    else if x.pc.Bound? || x.pc.Appended? then x.pc.i + 1
    else if !Entered(x.pc) || IsDisplacing(x.pc) then 0
    else |x.requested|
  }

  /** sess.listeners still stands for open listeners. */
  predicate StillListed(pc: Pc)
  {
    pc.Listening? || pc.Bound? || pc.Appended? || pc.Serving? || pc.Removing?
  }

  /** The session still has this listener to close: it has just been bound, or it is listed and
    * removeSession has not come to it. */
  ghost predicate Kept(x: Handler, l: nat)
  {
    || (x.pc.Bound? && x.pc.l == l)
    || exists j :: 0 <= j < |x.listeners| && x.listeners[j] == l
                   && (StillListed(x.pc) || (x.pc.Closing? && x.pc.k <= j))
  }

  ghost predicate ListenerOk(p: Params, s: State, l: nat)
    requires l < |s.listeners|
  {
    var y := s.listeners[l];
    y.owner < |s.handlers| &&
    var x := s.handlers[y.owner];
    && y.at < NextPos(x) && y.at < |x.requested| && x.requested[y.at] == y.service
    && Lookup(p, x.client, y.service) == Some(y.addr)
    && (y.open ==> Kept(x, l))
  }

  ghost predicate Owns(s: State, h: nat, l: nat)
  {
    l < |s.listeners| && s.listeners[l].owner == h
  }

  /** What a handler says about listeners is true of them. */
  ghost predicate ListsOk(s: State, h: nat)
    requires h < |s.handlers|
  {
    var x := s.handlers[h];
    && (forall j :: 0 <= j < |x.listeners| ==> Owns(s, h, x.listeners[j]))
    && (x.pc.Bound? ==> Owns(s, h, x.pc.l))
    && NextPos(x) <= |x.requested|
  }

  /** No two open listeners are in each other's way. */
  ghost predicate DistinctOpen(p: Params, s: State)
  {
    forall l, m :: 0 <= l < m < |s.listeners| && s.listeners[l].open && s.listeners[m].open ==>
      !Conflict(p, s.listeners[l].addr, s.listeners[m].addr)
  }

  ghost predicate ListenerInv(p: Params, s: State)
  {
    && (forall l :: 0 <= l < |s.listeners| ==> ListenerOk(p, s, l))
    && (forall h :: 0 <= h < |s.handlers| ==> ListsOk(s, h))
    && DistinctOpen(p, s)
  }

  /** A handler has not gone back, and its request is fixed once it listens. */
  ghost predicate Advances(x: Handler, y: Handler)
  {
    NextPos(x) <= NextPos(y) && (NextPos(x) > 0 ==> x.client == y.client && x.requested == y.requested)
  }

  /** Listeners only close, or come to be watched. */
  ghost predicate SameListener(a: Listener, b: Listener)
  {
    a.owner == b.owner && a.at == b.at && a.service == b.service && a.addr == b.addr && (b.open ==> a.open)
  }

  /** A listener that stays open is still kept by its session. */
  ghost predicate KeptStays(s: State, t: State, l: nat)
    requires l < |s.listeners| <= |t.listeners| && |s.handlers| <= |t.handlers|
  {
    var h := s.listeners[l].owner;
    t.listeners[l].open && h < |s.handlers| && Kept(s.handlers[h], l) ==> Kept(t.handlers[h], l)
  }

  ghost predicate ListenerFrame(s: State, t: State)
  {
    && |t.handlers| >= |s.handlers| && |t.listeners| >= |s.listeners|
    && (forall h :: 0 <= h < |s.handlers| ==> Advances(s.handlers[h], t.handlers[h]))
    && (forall l :: 0 <= l < |s.listeners| ==> SameListener(s.listeners[l], t.listeners[l]))
    && (forall l :: 0 <= l < |s.listeners| ==> KeptStays(s, t, l))
  }

  lemma OldListenersOk(p: Params, s: State, t: State)
    requires ListenerInv(p, s) && ListenerFrame(s, t)
    ensures forall l :: 0 <= l < |s.listeners| ==> ListenerOk(p, t, l)
  {
    forall l | 0 <= l < |s.listeners| ensures ListenerOk(p, t, l) {
      assert ListenerOk(p, s, l) && SameListener(s.listeners[l], t.listeners[l]) && KeptStays(s, t, l);
      var h := s.listeners[l].owner;
      assert Advances(s.handlers[h], t.handlers[h]);
    }
  }

  /** The common case: no new listener, and only handler h may say something new. */
  lemma ListenersFramed(p: Params, s: State, t: State, h: nat)
    requires ListenerInv(p, s) && ListenerFrame(s, t) && |t.listeners| == |s.listeners|
    requires h < |t.handlers| && ListsOk(t, h)
    requires forall g :: 0 <= g < |t.handlers| && g != h ==> g < |s.handlers| && SaysSame(s.handlers[g], t.handlers[g])
    ensures ListenerInv(p, t)
  {
    OldListenersOk(p, s, t);
    forall g | 0 <= g < |t.handlers| ensures ListsOk(t, g) {
      if g != h {
        assert g < |s.handlers| && SaysSame(s.handlers[g], t.handlers[g]);
        assert ListsOk(s, g);
        OwnershipKept(s, t, g);
      }
    }
    forall l, m | 0 <= l < m < |t.listeners| && t.listeners[l].open && t.listeners[m].open
      ensures !Conflict(p, t.listeners[l].addr, t.listeners[m].addr)
    {
      assert SameListener(s.listeners[l], t.listeners[l]) && SameListener(s.listeners[m], t.listeners[m]);
    }
  }

  ghost predicate SaysSame(x: Handler, y: Handler)
  {
    x.pc == y.pc && x.listeners == y.listeners && x.requested == y.requested && x.client == y.client
  }

  lemma OwnershipKept(s: State, t: State, g: nat)
    requires ListenerFrame(s, t)
    ensures forall l: nat :: Owns(s, g, l) ==> Owns(t, g, l)
  {
    forall l: nat | Owns(s, g, l) ensures Owns(t, g, l) {
      assert SameListener(s.listeners[l], t.listeners[l]);
    }
  }

  lemma ListenerMove(p: Params, x: Handler, move: Move)
    requires MoveEnabled(p, x, move) && NextPos(x) <= |x.requested|
    ensures var y := Moved(p, x, move);
            && Advances(x, y) && NextPos(y) <= |y.requested|
            && (y.pc.Bound? ==> y.pc == x.pc && y.listeners == x.listeners)
  {}

  lemma KeptMove(p: Params, x: Handler, move: Move, l: nat)
    requires MoveEnabled(p, x, move) && Kept(x, l)
    ensures Kept(Moved(p, x, move), l)
  {
    var y := Moved(p, x, move);
    if x.pc.Bound? && x.pc.l == l {
      if move.Append? {
        assert y.listeners[|x.listeners|] == l;
      }
    } else {
      var j :| 0 <= j < |x.listeners| && x.listeners[j] == l && (StillListed(x.pc) || (x.pc.Closing? && x.pc.k <= j));
      assert y.listeners[j] == l;
    }
  }

  lemma ListsAfterMove(p: Params, s: State, h: nat, move: Move)
    requires h < |s.handlers| && ListsOk(s, h) && MoveEnabled(p, s.handlers[h], move)
    ensures ListsOk(Put(s, h, Moved(p, s.handlers[h], move)), h)
  {
    var x := s.handlers[h];
    var y := Moved(p, x, move);
    var t := Put(s, h, y);
    ListenerMove(p, x, move);
    forall j | 0 <= j < |y.listeners| ensures Owns(t, h, y.listeners[j]) {
      if j < |x.listeners| {
        assert Owns(s, h, x.listeners[j]);
      }
    }
  }

  lemma ListenerPrivate(p: Params, s: State, h: nat, move: Move)
    requires ListenerInv(p, s) && h < |s.handlers| && MoveEnabled(p, s.handlers[h], move)
    ensures ListenerInv(p, Put(s, h, Moved(p, s.handlers[h], move)))
  {
    var x := s.handlers[h];
    var y := Moved(p, x, move);
    var t := Put(s, h, y);
    assert ListsOk(s, h);
    ListenerMove(p, x, move);
    ListsAfterMove(p, s, h, move);
    forall l | 0 <= l < |s.listeners| ensures KeptStays(s, t, l) {
      if s.listeners[l].owner == h && Kept(x, l) {
        KeptMove(p, x, move, l);
      }
    }
    ListenersFramed(p, s, t, h);
  }

  lemma ListenerBind(p: Params, s: State, h: nat)
    requires ListenerInv(p, s) && h < |s.handlers|
    requires Wanted(p, s.handlers[h]).Some? && AddrFree(p, s, Wanted(p, s.handlers[h]).value)
    ensures ListenerInv(p, Bind(p, s, h))
  {
    var x := s.handlers[h];
    var t := Bind(p, s, h);
    var n := |s.listeners|;
    assert ListsOk(s, h);
    forall l | 0 <= l < n ensures KeptStays(s, t, l) {
      if s.listeners[l].owner == h && Kept(x, l) {
        var j :| 0 <= j < |x.listeners| && x.listeners[j] == l;
        assert t.handlers[h].listeners[j] == l;
      }
    }
    OldListenersOk(p, s, t);
    assert ListenerOk(p, t, n);
    forall g | 0 <= g < |t.handlers| ensures ListsOk(t, g) {
      assert ListsOk(s, g);
      OwnershipKept(s, t, g);
    }
  }

  lemma ListenerSpawn(p: Params, s: State, h: nat)
    requires ListenerInv(p, s) && h < |s.handlers| && s.handlers[h].pc.Appended?
    ensures ListenerInv(p, Goto(Watch(s, s.handlers[h].pc.l), h, Listening(s.handlers[h].pc.i + 1)))
  {
    var x := s.handlers[h];
    var t := Goto(Watch(s, x.pc.l), h, Listening(x.pc.i + 1));
    assert ListsOk(s, h);
    forall l | 0 <= l < |s.listeners| ensures SameListener(s.listeners[l], t.listeners[l]) && KeptStays(s, t, l) {
      if s.listeners[l].owner == h && Kept(x, l) {
        var j :| 0 <= j < |x.listeners| && x.listeners[j] == l;
        assert t.handlers[h].listeners[j] == l;
      }
    }
    OwnershipKept(s, t, h);
    ListenersFramed(p, s, t, h);
  }

  lemma ListenerCloseNext(p: Params, s: State, t: State, h: nat)
    requires ListenerInv(p, s) && h < |s.handlers| && s.handlers[h].pc.Closing?
    requires s.handlers[h].pc.k < |s.handlers[h].listeners|
    requires t == Goto(CloseListener(s, s.handlers[h].listeners[s.handlers[h].pc.k]), h, Closing(s.handlers[h].pc.k + 1))
    ensures ListenerInv(p, t)
  {
    var x := s.handlers[h];
    assert ListsOk(s, h);
    forall l | 0 <= l < |s.listeners| ensures SameListener(s.listeners[l], t.listeners[l]) && KeptStays(s, t, l) {
      if s.listeners[l].owner == h && Kept(x, l) && t.listeners[l].open {
        var j :| 0 <= j < |x.listeners| && x.listeners[j] == l && x.pc.k <= j;
        assert j != x.pc.k;
        assert t.handlers[h].listeners[j] == l;
      }
    }
    OwnershipKept(s, t, h);
    ListenersFramed(p, s, t, h);
  }

  lemma ListenerUnlock(p: Params, s: State, t: State, h: nat)
    requires ListenerInv(p, s) && h < |s.handlers| && s.handlers[h].pc.Closing?
    requires s.handlers[h].pc.k >= |s.handlers[h].listeners| && t == Goto(s, h, ClosingMux).(mu := None)
    ensures ListenerInv(p, t)
  {
    assert ListsOk(s, h);
    forall l | 0 <= l < |s.listeners| ensures KeptStays(s, t, l) {
    }
    OwnershipKept(s, t, h);
    ListenersFramed(p, s, t, h);
  }

  lemma ListenerCloseOwn(p: Params, s: State, h: nat)
    requires ListenerInv(p, s) && h < |s.handlers| && s.handlers[h].pc.Closing?
    ensures ListenerInv(p, CloseOwnStep(s, h))
  {
    if s.handlers[h].pc.k < |s.handlers[h].listeners| {
      ListenerCloseNext(p, s, CloseOwnStep(s, h), h);
    } else {
      ListenerUnlock(p, s, CloseOwnStep(s, h), h);
    }
  }

  /** Any other change of place: nothing listed is forgotten. */
  lemma ListenerGoto(p: Params, s: State, t: State, h: nat)
    requires ListenerInv(p, s) && h < |s.handlers| && PcMoved(s, t, h) && t.listeners == s.listeners
    requires NextPos(s.handlers[h]) <= NextPos(t.handlers[h]) <= |t.handlers[h].requested|
    requires !s.handlers[h].pc.Bound? && !t.handlers[h].pc.Bound? && !s.handlers[h].pc.Closing?
    requires StillListed(s.handlers[h].pc) ==> StillListed(t.handlers[h].pc) || t.handlers[h].pc == Closing(0)
    ensures ListenerInv(p, t)
  {
    var x := s.handlers[h];
    assert ListsOk(s, h);
    forall l | 0 <= l < |s.listeners| ensures KeptStays(s, t, l) {
      if s.listeners[l].owner == h && Kept(x, l) {
        var j :| 0 <= j < |x.listeners| && x.listeners[j] == l && StillListed(x.pc);
        assert t.handlers[h].listeners[j] == l;
      }
    }
    OwnershipKept(s, t, h);
    ListenersFramed(p, s, t, h);
  }

  lemma ListenerRelease(p: Params, s: State, h: nat, pc: Pc)
    requires ListenerInv(p, s) && h < |s.handlers| && s.tokens > 0
    requires (pc.TokenReturned? && s.handlers[h].pc.SettingUp?) || (pc.Done? && s.handlers[h].pc.Exiting?)
    ensures ListenerInv(p, Release(s, h, pc))
  {
    var t := Release(s, h, pc);
    assert ListsOk(s, h);
    forall l | 0 <= l < |s.listeners| ensures KeptStays(s, t, l) {
    }
    OwnershipKept(s, t, h);
    ListenersFramed(p, s, t, h);
  }

  /** old.shutdown() closes listeners and sets flags; what handlers say does not change. */
  lemma ListenerDisplaced(p: Params, s: State, t: State, h: nat)
    requires ListenerInv(p, s) && h < |s.handlers| && IsDisplacing(s.handlers[h].pc) && Displaced(s, t, h)
    requires |t.listeners| == |s.listeners|
    requires forall l :: 0 <= l < |s.listeners| ==> SameListener(s.listeners[l], t.listeners[l])
    ensures ListenerInv(p, t)
  {
    assert ListsOk(s, h);
    forall g | 0 <= g < |s.handlers| ensures Advances(s.handlers[g], t.handlers[g]) {
      assert SameButFlags(s.handlers[g], t.handlers[g]);
    }
    forall l | 0 <= l < |s.listeners| ensures KeptStays(s, t, l) {
      var g := s.listeners[l].owner;
      if g < |s.handlers| && Kept(s.handlers[g], l) {
        KeptSays(s.handlers[g], t.handlers[g], l);
      }
    }
    OwnershipKept(s, t, h);
    ListenersFramed(p, s, t, h);
  }

  lemma KeptSays(x: Handler, y: Handler, l: nat)
    requires Kept(x, l) && x.pc == y.pc && x.listeners == y.listeners
    ensures Kept(y, l)
  {}

  lemma ListenerDisplace(p: Params, s: State, h: nat)
    requires ListenerInv(p, s) && h < |s.handlers| && IsDisplacing(s.handlers[h].pc)
    ensures ListenerInv(p, DisplaceStep(s, h))
  {
    DisplaceEffect(s, h);
    ListenerDisplaced(p, s, DisplaceStep(s, h), h);
  }

  lemma ListenerAct(p: Params, s: State, h: nat, act: Act)
    requires ListenerInv(p, s) && h < |s.handlers| && ActEnabled(p, s, h, act)
    ensures ListenerInv(p, ActApply(p, s, h, act))
  {
    var x := s.handlers[h];
    assert ListsOk(s, h);
    match act
    case Private(move) => ListenerPrivate(p, s, h, move);
    case Displace => ListenerDisplace(p, s, h);
    case ReleaseToken => ListenerRelease(p, s, h, TokenReturned);
    case BindOk => ListenerBind(p, s, h);
    case Spawn => ListenerSpawn(p, s, h);
    case CloseOwn => ListenerCloseOwn(p, s, h);
    case Exit =>
      if x.semHeld {
        ListenerRelease(p, s, h, Done);
      } else {
        ListenerGoto(p, s, Goto(s, h, Done), h);
      }
    case _ =>
      PcEffect(p, s, h, act);
      ListenerGoto(p, s, ActApply(p, s, h, act), h);
  }

  lemma ListenerDeed(p: Params, s: State, x: nat, deed: Deed)
    requires ListenerInv(p, s) && x < |s.proxies| && DeedEnabled(s, x, deed)
    ensures ListenerInv(p, DeedApply(p, s, x, deed))
  {
    var t := DeedApply(p, s, x, deed);
    DeedKeepsHandlers(p, s, x, deed);
    ListenerSaid(p, s, t);
  }

  /** No handler says anything new and listeners at most close. */
  lemma ListenerSaid(p: Params, s: State, t: State)
    requires ListenerInv(p, s) && |t.handlers| == |s.handlers| && |t.listeners| == |s.listeners|
    requires forall h :: 0 <= h < |s.handlers| ==> SaysSame(s.handlers[h], t.handlers[h])
    requires forall l :: 0 <= l < |s.listeners| ==> SameListener(s.listeners[l], t.listeners[l])
    ensures ListenerInv(p, t)
  {
    forall l | 0 <= l < |s.listeners| ensures KeptStays(s, t, l) {
      var g := s.listeners[l].owner;
      if g < |s.handlers| && Kept(s.handlers[g], l) {
        KeptSays(s.handlers[g], t.handlers[g], l);
      }
    }
    if |s.handlers| == 0 {
      assert |s.listeners| > 0 ==> ListenerOk(p, s, 0);
    } else {
      assert ListsOk(s, 0) && SaysSame(s.handlers[0], t.handlers[0]);
      OwnershipKept(s, t, 0);
      ListenersFramed(p, s, t, 0);
    }
  }

  lemma ListenerStep(p: Params, s: State, step: Step)
    requires ListenerInv(p, s) && Enabled(p, s, step)
    ensures ListenerInv(p, Apply(p, s, step))
  {
    match step
    case ConnArrives =>
      if s.tokens < MAX_PENDING_HANDSHAKES {
        var t := Apply(p, s, step);
        ListenersFramed(p, s, t, |s.handlers|);
      }
    case CtxDone => ListenerSaid(p, s, Apply(p, s, step));
    case Handle(h, act) => ListenerAct(p, s, h, act);
    case CloserFires(l) => ListenerSaid(p, s, CloseListener(s, l));
    case UserArrives(_, _) => ListenerSaid(p, s, Apply(p, s, step));
    case Serve(x, deed) => ListenerDeed(p, s, x, deed);
  }

  // ------------------------------------------------------------ stream slots and Open headers

  /** The proxyUser call holds a slot of its session's streamSem. */
  predicate HoldsSlot(y: Proxy, h: nat)
  {
    y.owner == h && !y.pc.Arrived? && !y.pc.Finished?
  }

  function Active(ps: seq<Proxy>, h: nat): (n: nat)
  {
    if ps == [] then 0
    else Active(ps[..|ps| - 1], h) + (if HoldsSlot(ps[|ps| - 1], h) then 1 else 0)
  }

  lemma ActiveSnoc(ps: seq<Proxy>, y: Proxy, h: nat)
    ensures Active(ps + [y], h) == Active(ps, h) + (if HoldsSlot(y, h) then 1 else 0)
  {
    assert (ps + [y])[..|ps|] == ps;
  }

  lemma {:induction false} ActivePut(ps: seq<Proxy>, x: nat, y: Proxy, h: nat)
    requires x < |ps|
    ensures Active(ps[x := y], h)
            == Active(ps, h) - (if HoldsSlot(ps[x], h) then 1 else 0) + (if HoldsSlot(y, h) then 1 else 0)
  {
    var n := |ps| - 1;
    if x == n {
      assert ps[x := y][..n] == ps[..n];
    } else {
      ActivePut(ps[..n], x, y, h);
      assert ps[x := y][..n] == ps[..n][x := y];
    }
  }

  lemma {:induction false} HolderIsActive(ps: seq<Proxy>, x: nat, h: nat)
    requires x < |ps| && HoldsSlot(ps[x], h)
    ensures Active(ps, h) >= 1
  {
    if x < |ps| - 1 {
      HolderIsActive(ps[..|ps| - 1], x, h);
    }
  }

  lemma {:induction false} NoneActive(ps: seq<Proxy>, h: nat)
    requires forall x :: 0 <= x < |ps| ==> ps[x].owner != h
    ensures Active(ps, h) == 0
  {
    if ps != [] {
      NoneActive(ps[..|ps| - 1], h);
    }
  }

  /** A service that session h asked for in its ClientAuth, and a user it is open to. */
  ghost predicate Asked(p: Params, s: State, h: nat, service: Str, user: Str)
  {
    && h < |s.handlers| && !s.handlers[h].pc.Handshaking? && service in s.handlers[h].requested
    && p.admits(s.handlers[h].client, service, user)
  }

  ghost predicate SlotInv(p: Params, s: State)
  {
    && (forall h :: 0 <= h < |s.handlers| ==> s.handlers[h].slots == Active(s.proxies, h) <= p.maxStreams)
    && (forall x :: 0 <= x < |s.proxies| ==> Asked(p, s, s.proxies[x].owner, s.proxies[x].service, s.proxies[x].user))
    && (forall k :: 0 <= k < |s.headers| ==> Asked(p, s, s.headers[k].owner, s.headers[k].service, s.headers[k].user))
  }

  /** A handler keeps its slots and, once past the handshake, its client and request. */
  ghost predicate SlotSame(x: Handler, y: Handler)
  {
    x.slots == y.slots
    && (!x.pc.Handshaking? ==> !y.pc.Handshaking? && y.requested == x.requested && y.client == x.client)
  }

  lemma SlotFramed(p: Params, s: State, t: State)
    requires SlotInv(p, s) && |t.handlers| == |s.handlers| && t.proxies == s.proxies && t.headers == s.headers
    requires forall h :: 0 <= h < |s.handlers| ==> SlotSame(s.handlers[h], t.handlers[h])
    ensures SlotInv(p, t)
  {
    forall x | 0 <= x < |t.proxies| ensures Asked(p, t, t.proxies[x].owner, t.proxies[x].service, t.proxies[x].user) {
      assert Asked(p, s, s.proxies[x].owner, s.proxies[x].service, s.proxies[x].user);
    }
    forall k | 0 <= k < |t.headers| ensures Asked(p, t, t.headers[k].owner, t.headers[k].service, t.headers[k].user) {
      assert Asked(p, s, s.headers[k].owner, s.headers[k].service, s.headers[k].user);
    }
  }

  lemma SlotMove(p: Params, x: Handler, move: Move)
    requires MoveEnabled(p, x, move)
    ensures SlotSame(x, Moved(p, x, move))
  {}

  lemma SlotAct(p: Params, s: State, h: nat, act: Act)
    requires SlotInv(p, s) && h < |s.handlers| && ActEnabled(p, s, h, act)
    ensures SlotInv(p, ActApply(p, s, h, act))
  {
    match act
    case Private(move) =>
      SlotMove(p, s.handlers[h], move);
      SlotFramed(p, s, Put(s, h, Moved(p, s.handlers[h], move)));
    case Displace => SlotDisplace(p, s, h);
    case ReleaseToken => SlotFramed(p, s, Release(s, h, TokenReturned));
    case Exit =>
      if s.handlers[h].semHeld {
        SlotFramed(p, s, Release(s, h, Done));
      } else {
        SlotFramed(p, s, Goto(s, h, Done));
      }
    case _ =>
      PcEffect(p, s, h, act);
      SlotPc(p, s, ActApply(p, s, h, act), h, act);
  }

  lemma SlotPc(p: Params, s: State, t: State, h: nat, act: Act)
    requires SlotInv(p, s) && h < |s.handlers| && PcMoved(s, t, h)
    requires MovesOnlyPc(act) && Leads(act, s.handlers[h].pc, t.handlers[h].pc)
    ensures SlotInv(p, t)
  {
    SlotFramed(p, s, t);
  }

  lemma SlotDisplaced(p: Params, s: State, t: State, h: nat)
    requires SlotInv(p, s) && h < |s.handlers| && IsDisplacing(s.handlers[h].pc) && Displaced(s, t, h)
    ensures SlotInv(p, t)
  {
    forall g | 0 <= g < |s.handlers| ensures SlotSame(s.handlers[g], t.handlers[g]) {
      assert SameButFlags(s.handlers[g], t.handlers[g]);
    }
    SlotFramed(p, s, t);
  }

  lemma SlotDisplace(p: Params, s: State, h: nat)
    requires SlotInv(p, s) && h < |s.handlers| && IsDisplacing(s.handlers[h].pc)
    ensures SlotInv(p, DisplaceStep(s, h))
  {
    DisplaceEffect(s, h);
    SlotDisplaced(p, s, DisplaceStep(s, h), h);
  }

  /** A proxy changes place and its session's counter with it. */
  lemma SlotPut(p: Params, s: State, t: State, x: nat)
    requires SlotInv(p, s) && x < |s.proxies| == |t.proxies|
    requires |t.handlers| == |s.handlers| && t.proxies == s.proxies[x := s.proxies[x].(pc := t.proxies[x].pc)]
    requires forall h :: 0 <= h < |s.handlers| ==> t.handlers[h] == s.handlers[h].(slots := t.handlers[h].slots)
    requires forall h :: 0 <= h < |s.handlers| ==>
               t.handlers[h].slots == s.handlers[h].slots - (if HoldsSlot(s.proxies[x], h) then 1 else 0)
                                      + (if HoldsSlot(t.proxies[x], h) then 1 else 0) <= p.maxStreams
    requires forall k :: 0 <= k < |t.headers| ==>
               (k < |s.headers| && t.headers[k] == s.headers[k])
               || t.headers[k] == Header(s.proxies[x].owner, s.proxies[x].service, s.proxies[x].user)
    ensures SlotInv(p, t)
  {
    forall h | 0 <= h < |t.handlers| ensures t.handlers[h].slots == Active(t.proxies, h) {
      ActivePut(s.proxies, x, t.proxies[x], h);
    }
    forall y | 0 <= y < |t.proxies| ensures Asked(p, t, t.proxies[y].owner, t.proxies[y].service, t.proxies[y].user) {
      assert Asked(p, s, s.proxies[y].owner, s.proxies[y].service, s.proxies[y].user);
    }
    forall k | 0 <= k < |t.headers| ensures Asked(p, t, t.headers[k].owner, t.headers[k].service, t.headers[k].user) {
      assert Asked(p, s, s.proxies[x].owner, s.proxies[x].service, s.proxies[x].user);
      if k < |s.headers| {
        assert Asked(p, s, s.headers[k].owner, s.headers[k].service, s.headers[k].user);
      }
    }
  }

  lemma SlotDeed(p: Params, s: State, x: nat, deed: Deed)
    requires SlotInv(p, s) && x < |s.proxies| && DeedEnabled(s, x, deed)
    ensures SlotInv(p, DeedApply(p, s, x, deed))
  {
    var t := DeedApply(p, s, x, deed);
    DeedKeepsHandlers(p, s, x, deed);
    SlotPut(p, s, t, x);
  }

  lemma SlotUser(p: Params, s: State, l: nat, user: Str)
    requires SlotInv(p, s) && ListenerInv(p, s) && Enabled(p, s, UserArrives(l, user))
    ensures SlotInv(p, Apply(p, s, UserArrives(l, user)))
  {
    var t := Apply(p, s, UserArrives(l, user));
    var y := s.listeners[l];
    assert ListenerOk(p, s, l);
    if p.admits(s.handlers[y.owner].client, y.service, user) {
      forall h | 0 <= h < |t.handlers| ensures t.handlers[h].slots == Active(t.proxies, h) {
        ActiveSnoc(s.proxies, t.proxies[|s.proxies|], h);
      }
      assert Asked(p, t, y.owner, y.service, user);
      forall x | 0 <= x < |t.proxies| ensures Asked(p, t, t.proxies[x].owner, t.proxies[x].service, t.proxies[x].user) {
        if x < |s.proxies| {
          assert Asked(p, s, s.proxies[x].owner, s.proxies[x].service, s.proxies[x].user);
        }
      }
      forall k | 0 <= k < |t.headers| ensures Asked(p, t, t.headers[k].owner, t.headers[k].service, t.headers[k].user) {
        assert Asked(p, s, s.headers[k].owner, s.headers[k].service, s.headers[k].user);
      }
    }
  }

  lemma SlotConn(p: Params, s: State)
    requires SlotInv(p, s)
    ensures SlotInv(p, Apply(p, s, ConnArrives))
  {
    var t := Apply(p, s, ConnArrives);
    if s.tokens < MAX_PENDING_HANDSHAKES {
      var n := |s.handlers|;
      forall x | 0 <= x < |s.proxies| ensures s.proxies[x].owner != n && Asked(p, t, t.proxies[x].owner, t.proxies[x].service, t.proxies[x].user) {
        assert Asked(p, s, s.proxies[x].owner, s.proxies[x].service, s.proxies[x].user);
      }
      NoneActive(s.proxies, n);
      forall k | 0 <= k < |t.headers| ensures Asked(p, t, t.headers[k].owner, t.headers[k].service, t.headers[k].user) {
        assert Asked(p, s, s.headers[k].owner, s.headers[k].service, s.headers[k].user);
      }
    }
  }

  lemma SlotStep(p: Params, s: State, step: Step)
    requires SlotInv(p, s) && ListenerInv(p, s) && Enabled(p, s, step)
    ensures SlotInv(p, Apply(p, s, step))
  {
    match step
    case ConnArrives => SlotConn(p, s);
    case Handle(h, act) => SlotAct(p, s, h, act);
    case UserArrives(l, user) => SlotUser(p, s, l, user);
    case Serve(x, deed) => SlotDeed(p, s, x, deed);
    case _ => SlotFramed(p, s, Apply(p, s, step));
  }

  // ------------------------------------------------------------ whole runs

  ghost predicate Inv(p: Params, s: State)
  {
    TokenInv(s) && RegistryInv(s) && ListenerInv(p, s) && SlotInv(p, s)
  }

  lemma InvStep(p: Params, s: State, step: Step)
    requires Inv(p, s) && Enabled(p, s, step)
    ensures Inv(p, Apply(p, s, step))
  {
    TokenStep(p, s, step);
    RegistryStep(p, s, step);
    ListenerStep(p, s, step);
    SlotStep(p, s, step);
  }

  lemma {:induction false} InvRun(p: Params, s: State, steps: seq<Step>)
    requires Inv(p, s) && ValidRun(p, s, steps)
    ensures Inv(p, Exec(p, s, steps))
    decreases |steps|
  {
    if steps != [] {
      InvStep(p, s, steps[0]);
      InvRun(p, Apply(p, s, steps[0]), steps[1..]);
    }
  }

  lemma InvReachable(p: Params, s: State)
    requires Reachable(p, s)
    ensures Inv(p, s)
  {
    var steps :| ValidRun(p, INIT, steps) && Exec(p, INIT, steps) == s;
    InvRun(p, INIT, steps);
  }
}
