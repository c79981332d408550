/** What a session that is told nothing else does for its client: it serves every name it was asked
  * for, or none. */
module Service {
  import opened Bytes
  import opened SessionMachine
  import opened SessionInvariants
  import opened Handover
  import opened Progress

  /** The session is in its listen loop or past it, and has not begun to leave. */
  predicate InService(pc: Pc)
  {
    pc.Listening? || pc.Bound? || pc.Appended? || pc.Serving?
  }

  ghost predicate Owned(s: State, h: nat, l: nat)
  {
    l < |s.listeners| && s.listeners[l].owner == h
  }

  /** The session has bound its name number i. */
  ghost predicate BoundAt(s: State, h: nat, i: nat)
  {
    exists l: nat :: Owned(s, h, l) && s.listeners[l].at == i
  }

  ghost predicate HasAddress(p: Params, x: Handler, i: nat)
  {
    i < |x.requested| && Lookup(p, x.client, x.requested[i]).Some?
  }

  /** Every name with an address that the loop has dealt with was bound. */
  ghost predicate Covered(p: Params, s: State, h: nat)
    requires h < |s.handlers|
  {
    forall i: nat :: i < NextPos(s.handlers[h]) && HasAddress(p, s.handlers[h], i) ==> BoundAt(s, h, i)
  }

  /** The listener whose acceptUsers has yet to be started. */
  predicate NotYetSpawned(pc: Pc, l: nat)
  {
    (pc.Bound? || pc.Appended?) && pc.l == l
  }

  /** Until it is told to stop, all that a session has bound is open and watched. */
  ghost predicate ListenerServes(s: State, h: nat, l: nat)
    requires h < |s.handlers| && l < |s.listeners|
  {
    && (!s.handlers[h].cancelled && !s.ctxDone ==> s.listeners[l].open)
    && (s.listeners[l].watched || NotYetSpawned(s.handlers[h].pc, l))
  }

  ghost predicate ServiceOk(p: Params, s: State, h: nat)
    requires h < |s.handlers|
  {
    InService(s.handlers[h].pc) ==>
      Covered(p, s, h) && forall l: nat :: Owned(s, h, l) ==> ListenerServes(s, h, l)
  }

  /** Past its cancel, a displacement has cancelled its predecessor and closes only what that one bound. */
  ghost predicate DisplacerOk(s: State, h: nat)
    requires h < |s.handlers|
  {
    var pc := s.handlers[h].pc;
    && (IsDisplacing(pc) && !pc.DisplaceCancel? ==> pc.prior < |s.handlers| && s.handlers[pc.prior].cancelled)
    && (pc.DisplaceClose? ==> forall j :: 0 <= j < |pc.lns| ==> Owned(s, pc.prior, pc.lns[j]))
  }

  ghost predicate ServeInv(p: Params, s: State)
  {
    && (forall h :: 0 <= h < |s.handlers| ==> ServiceOk(p, s, h))
    && (forall h :: 0 <= h < |s.handlers| ==> DisplacerOk(s, h))
  }

  // ------------------------------------------------------------ steps

  /** A handler goes on: it stays in service past names without an address only, or comes into
    * service with nothing bound. */
  ghost predicate ServesOn(p: Params, s: State, x: Handler, y: Handler, h: nat)
  {
    && (x.cancelled ==> y.cancelled)
    && (InService(y.pc) ==>
          if InService(x.pc) then
            && y.client == x.client && y.requested == x.requested
            && forall i: nat :: NextPos(x) <= i < NextPos(y) ==> !HasAddress(p, x, i)
          else NextPos(y) == 0 && forall l: nat :: !Owned(s, h, l))
  }

  /** A listener keeps whose it is; it closes only if its session was told to stop or has begun to leave. */
  ghost predicate ListenerGoesOn(s: State, t: State, l: nat)
    requires l < |s.listeners| == |t.listeners|
  {
    var a, b := s.listeners[l], t.listeners[l];
    && b.owner == a.owner && b.at == a.at && (a.watched ==> b.watched)
    && (a.open && !b.open ==>
          t.ctxDone || (b.owner < |t.handlers| && (t.handlers[b.owner].cancelled || !InService(t.handlers[b.owner].pc))))
  }

  ghost predicate SpawnsGoOn(x: Handler, y: Handler, t: State)
  {
    forall l: nat :: l < |t.listeners| && NotYetSpawned(x.pc, l) ==> NotYetSpawned(y.pc, l) || t.listeners[l].watched
  }

  ghost predicate Serves(p: Params, s: State, t: State)
  {
    && |t.handlers| >= |s.handlers| && |t.listeners| == |s.listeners| && (s.ctxDone ==> t.ctxDone)
    && (forall h :: 0 <= h < |s.handlers| ==> ServesOn(p, s, s.handlers[h], t.handlers[h], h))
    && (forall h :: 0 <= h < |s.handlers| ==> SpawnsGoOn(s.handlers[h], t.handlers[h], t))
    && (forall h :: |s.handlers| <= h < |t.handlers| ==> !InService(t.handlers[h].pc) && !IsDisplacing(t.handlers[h].pc))
    && (forall l :: 0 <= l < |s.listeners| ==> ListenerGoesOn(s, t, l))
  }

  lemma ServiceStays(p: Params, s: State, t: State, h: nat)
    requires Serves(p, s, t) && h < |s.handlers| && ServiceOk(p, s, h)
    ensures ServiceOk(p, t, h)
  {
    var x, y := s.handlers[h], t.handlers[h];
    assert ServesOn(p, s, x, y, h);
    if InService(y.pc) {
      forall l: nat | Owned(t, h, l) ensures ListenerServes(t, h, l) {
        assert ListenerGoesOn(s, t, l) && Owned(s, h, l) && SpawnsGoOn(x, y, t);
        assert ListenerServes(s, h, l);
      }
      forall i: nat | i < NextPos(y) && HasAddress(p, y, i) ensures BoundAt(t, h, i) {
        assert HasAddress(p, x, i) && i < NextPos(x) && BoundAt(s, h, i);
        var l: nat :| Owned(s, h, l) && s.listeners[l].at == i;
        assert ListenerGoesOn(s, t, l) && Owned(t, h, l);
      }
    }
  }

  lemma DisplacerStays(p: Params, s: State, t: State, h: nat)
    requires Serves(p, s, t) && h < |s.handlers| && DisplacerOk(s, h) && t.handlers[h].pc == s.handlers[h].pc
    ensures DisplacerOk(t, h)
  {
    var pc := s.handlers[h].pc;
    if IsDisplacing(pc) && !pc.DisplaceCancel? {
      assert ServesOn(p, s, s.handlers[pc.prior], t.handlers[pc.prior], pc.prior);
    }
    if pc.DisplaceClose? {
      forall j | 0 <= j < |pc.lns| ensures Owned(t, pc.prior, pc.lns[j]) {
        assert Owned(s, pc.prior, pc.lns[j]) && ListenerGoesOn(s, t, pc.lns[j]);
      }
    }
  }

  /** Only the handler x has changed its place, if any; where it displaces now is checked apart. */
  lemma ServeStays(p: Params, s: State, t: State, x: nat)
    requires ServeInv(p, s) && Serves(p, s, t)
    requires forall h :: 0 <= h < |s.handlers| && h != x ==> t.handlers[h].pc == s.handlers[h].pc
    requires x < |s.handlers| && t.handlers[x].pc != s.handlers[x].pc ==> DisplacerOk(t, x)
    ensures ServeInv(p, t)
  {
    forall h | 0 <= h < |t.handlers| ensures ServiceOk(p, t, h) && DisplacerOk(t, h) {
      if h < |s.handlers| {
        assert ServiceOk(p, s, h) && DisplacerOk(s, h);
        ServiceStays(p, s, t, h);
        if h != x || t.handlers[x].pc == s.handlers[x].pc {
          DisplacerStays(p, s, t, h);
        }
      }
    }
  }

  // ------------------------------------------------------------ what steps change the place of a handler only

  lemma MoveServes(p: Params, s: State, h: nat, move: Move)
    requires h < |s.handlers| && MoveEnabled(p, s.handlers[h], move)
    ensures Serves(p, s, Put(s, h, Moved(p, s.handlers[h], move)))
    ensures !IsDisplacing(Moved(p, s.handlers[h], move).pc) || Moved(p, s.handlers[h], move).pc == s.handlers[h].pc
  {
    var t := Put(s, h, Moved(p, s.handlers[h], move));
    assert ServesOn(p, s, s.handlers[h], t.handlers[h], h) by {
      MoveServesOn(p, s, s.handlers[h], move, h);
    }
    assert SpawnsGoOn(s.handlers[h], t.handlers[h], t);
  }

  lemma MoveServesOn(p: Params, s: State, x: Handler, move: Move, h: nat)
    requires MoveEnabled(p, x, move)
    ensures ServesOn(p, s, x, Moved(p, x, move), h)
  {}

  lemma MovePreserves(p: Params, s: State, h: nat, move: Move)
    requires ServeInv(p, s) && h < |s.handlers| && MoveEnabled(p, s.handlers[h], move)
    ensures ServeInv(p, Put(s, h, Moved(p, s.handlers[h], move)))
  {
    MoveServes(p, s, h, move);
    ServeStays(p, s, Put(s, h, Moved(p, s.handlers[h], move)), h);
  }

  /** A session that is not in its loop yet has bound nothing. */
  lemma NothingBoundYet(p: Params, s: State, h: nat, l: nat)
    requires ListenerInv(p, s) && h < |s.handlers| && NextPos(s.handlers[h]) == 0
    ensures !Owned(s, h, l)
  {
    if l < |s.listeners| {
      assert ListenerOk(p, s, l);
    }
  }

  lemma RegisterPreserves(p: Params, s: State, h: nat)
    requires ListenerInv(p, s) && ServeInv(p, s) && h < |s.handlers| && s.handlers[h].pc.Registering?
    ensures ServeInv(p, ReplaceSession(s, h))
  {
    var t := ReplaceSession(s, h);
    forall l: nat ensures !Owned(s, h, l) {
      NothingBoundYet(p, s, h, l);
    }
    assert ServesOn(p, s, s.handlers[h], t.handlers[h], h);
    ServeStays(p, s, t, h);
  }

  lemma ReleasePreserves(p: Params, s: State, h: nat, pc: Pc)
    requires ServeInv(p, s) && h < |s.handlers| && s.tokens > 0 && (pc == TokenReturned || pc == Done)
    ensures ServeInv(p, Release(s, h, pc))
  {
    var t := Release(s, h, pc);
    if InService(s.handlers[h].pc) {
      assert ServesOn(p, s, s.handlers[h], t.handlers[h], h);
    }
    ServeFrees(p, s, t, h);
  }

  /** A handler that leaves service, or was never in it, owes nothing. */
  lemma ServeFrees(p: Params, s: State, t: State, h: nat)
    requires ServeInv(p, s) && h < |s.handlers| && |t.handlers| == |s.handlers| && t.listeners == s.listeners
    requires t.ctxDone == s.ctxDone && t.handlers == s.handlers[h := t.handlers[h]]
    requires !InService(t.handlers[h].pc) && !IsDisplacing(t.handlers[h].pc) && (s.handlers[h].cancelled ==> t.handlers[h].cancelled)
    ensures ServeInv(p, t)
  {
    forall g | 0 <= g < |t.handlers| ensures ServiceOk(p, t, g) && DisplacerOk(t, g) {
      assert ServiceOk(p, s, g) && DisplacerOk(s, g);
      if g != h && InService(t.handlers[g].pc) {
        SameCovered(p, s, t, g);
      }
    }
  }

  lemma SameCovered(p: Params, s: State, t: State, g: nat)
    requires g < |s.handlers| == |t.handlers| && t.listeners == s.listeners && t.ctxDone == s.ctxDone
    requires t.handlers[g] == s.handlers[g] && ServiceOk(p, s, g)
    ensures ServiceOk(p, t, g)
  {
    if InService(s.handlers[g].pc) {
      forall i: nat | i < NextPos(t.handlers[g]) && HasAddress(p, t.handlers[g], i) ensures BoundAt(t, g, i) {
        assert BoundAt(s, g, i);
        var l: nat :| Owned(s, g, l) && s.listeners[l].at == i;
        assert Owned(t, g, l);
      }
      forall l: nat | Owned(t, g, l) ensures ListenerServes(t, g, l) {
        assert Owned(s, g, l) && ListenerServes(s, g, l);
      }
    }
  }

  lemma BindPreserves(p: Params, s: State, h: nat)
    requires ServeInv(p, s) && h < |s.handlers| && Wanted(p, s.handlers[h]).Some?
    ensures ServeInv(p, Bind(p, s, h))
  {
    var t, n := Bind(p, s, h), |s.listeners|;
    forall g | 0 <= g < |t.handlers| ensures ServiceOk(p, t, g) && DisplacerOk(t, g) {
      assert ServiceOk(p, s, g) && DisplacerOk(s, g);
      BindService(p, s, h, g);
      BindDisplacer(p, s, h, g);
    }
  }

  lemma BindDisplacer(p: Params, s: State, h: nat, g: nat)
    requires h < |s.handlers| && Wanted(p, s.handlers[h]).Some? && g < |s.handlers| && DisplacerOk(s, g)
    ensures DisplacerOk(Bind(p, s, h), g)
  {
    var t, pc := Bind(p, s, h), s.handlers[g].pc;
    if pc.DisplaceClose? && g != h {
      forall j | 0 <= j < |pc.lns| ensures Owned(t, pc.prior, pc.lns[j]) {
        assert Owned(s, pc.prior, pc.lns[j]);
      }
    }
  }

  lemma BindService(p: Params, s: State, h: nat, g: nat)
    requires h < |s.handlers| && Wanted(p, s.handlers[h]).Some? && g < |s.handlers| && ServiceOk(p, s, g)
    ensures ServiceOk(p, Bind(p, s, h), g)
  {
    var t, n := Bind(p, s, h), |s.listeners|;
    if InService(s.handlers[g].pc) {
      forall l: nat | Owned(t, g, l) ensures ListenerServes(t, g, l) {
        if l < n {
          assert Owned(s, g, l) && ListenerServes(s, g, l);
        }
      }
      forall i: nat | i < NextPos(t.handlers[g]) && HasAddress(p, t.handlers[g], i) ensures BoundAt(t, g, i) {
        if g == h && i == s.handlers[h].pc.i {
          assert Owned(t, h, n) && t.listeners[n].at == i;
        } else {
          assert i < NextPos(s.handlers[g]) && HasAddress(p, s.handlers[g], i) && BoundAt(s, g, i);
          var l: nat :| Owned(s, g, l) && s.listeners[l].at == i;
          assert Owned(t, g, l);
        }
      }
    }
  }

  lemma SpawnPreserves(p: Params, s: State, h: nat)
    requires ServeInv(p, s) && h < |s.handlers| && s.handlers[h].pc.Appended?
    ensures ServeInv(p, Goto(Watch(s, s.handlers[h].pc.l), h, Listening(s.handlers[h].pc.i + 1)))
  {
    var t := Goto(Watch(s, s.handlers[h].pc.l), h, Listening(s.handlers[h].pc.i + 1));
    assert ServesOn(p, s, s.handlers[h], t.handlers[h], h);
    assert SpawnsGoOn(s.handlers[h], t.handlers[h], t);
    forall l | 0 <= l < |s.listeners| ensures ListenerGoesOn(s, t, l) {}
    ServeStays(p, s, t, h);
  }

  /** A listener closed by its own session, or on behalf of one that was told to stop. */
  lemma CloseServes(p: Params, s: State, l: nat)
    requires l < |s.listeners| && s.listeners[l].owner < |s.handlers|
    requires s.ctxDone || s.handlers[s.listeners[l].owner].cancelled || !InService(s.handlers[s.listeners[l].owner].pc)
    ensures Serves(p, s, CloseListener(s, l))
  {
    var t := CloseListener(s, l);
    forall h | 0 <= h < |s.handlers| ensures ServesOn(p, s, s.handlers[h], t.handlers[h], h) {}
  }

  lemma ClosePreserves(p: Params, s: State, l: nat)
    requires ServeInv(p, s) && l < |s.listeners| && s.listeners[l].owner < |s.handlers|
    requires s.ctxDone || s.handlers[s.listeners[l].owner].cancelled || !InService(s.handlers[s.listeners[l].owner].pc)
    ensures ServeInv(p, CloseListener(s, l))
  {
    CloseServes(p, s, l);
    ServeStays(p, s, CloseListener(s, l), |s.handlers|);
  }

  lemma LeavePreserves(p: Params, s: State, h: nat, pc: Pc)
    requires ServeInv(p, s) && h < |s.handlers| && !InService(pc) && !IsDisplacing(pc)
    ensures ServeInv(p, Goto(s, h, pc))
  {
    ServeFrees(p, s, Goto(s, h, pc), h);
  }

  lemma CloseOwnPreserves(p: Params, s: State, h: nat)
    requires ListenerInv(p, s) && ServeInv(p, s) && h < |s.handlers| && s.handlers[h].pc.Closing?
    ensures ServeInv(p, CloseOwnStep(s, h))
  {
    var x := s.handlers[h];
    if x.pc.k < |x.listeners| {
      assert ListsOk(s, h) && Owns(s, h, x.listeners[x.pc.k]);
      ClosePreserves(p, s, x.listeners[x.pc.k]);
      LeavePreserves(p, CloseListener(s, x.listeners[x.pc.k]), h, Closing(x.pc.k + 1));
    } else {
      LeavePreserves(p, s, h, ClosingMux);
      SharedPreserves(p, Goto(s, h, ClosingMux), CloseOwnStep(s, h));
    }
  }

  /** Only handlers, listeners and ctxDone matter. */
  lemma SharedPreserves(p: Params, s: State, t: State)
    requires ServeInv(p, s) && t.handlers == s.handlers && t.listeners == s.listeners && t.ctxDone == s.ctxDone
    ensures ServeInv(p, t)
  {
    forall g | 0 <= g < |t.handlers| ensures ServiceOk(p, t, g) && DisplacerOk(t, g) {
      assert ServiceOk(p, s, g) && DisplacerOk(s, g);
      SameCovered(p, s, t, g);
    }
  }

  // ------------------------------------------------------------ displacement

  /** A flag of a handler is set. */
  lemma FlagPreserves(p: Params, s: State, g: nat, x: Handler)
    requires ServeInv(p, s) && g < |s.handlers|
    requires x == s.handlers[g].(cancelled := x.cancelled, muxClosed := x.muxClosed) && (s.handlers[g].cancelled ==> x.cancelled)
    ensures ServeInv(p, Put(s, g, x))
  {
    var t := Put(s, g, x);
    assert ServesOn(p, s, s.handlers[g], x, g);
    ServeStays(p, s, t, g);
  }

  /** The displacing session moves on. */
  lemma DisplacerMoves(p: Params, s: State, h: nat, pc: Pc)
    requires ListenerInv(p, s) && ServeInv(p, s) && h < |s.handlers| && IsDisplacing(s.handlers[h].pc)
    requires (IsDisplacing(pc) && DisplacerOk(Goto(s, h, pc), h)) || pc == Listening(0)
    ensures ServeInv(p, Goto(s, h, pc))
  {
    var t := Goto(s, h, pc);
    forall l: nat ensures !Owned(s, h, l) {
      NothingBoundYet(p, s, h, l);
    }
    assert ServesOn(p, s, s.handlers[h], t.handlers[h], h);
    ServeStays(p, s, t, h);
  }

  lemma ListenerFlag(p: Params, s: State, g: nat, x: Handler)
    requires ListenerInv(p, s) && g < |s.handlers|
    requires x == s.handlers[g].(cancelled := x.cancelled, muxClosed := x.muxClosed)
    ensures ListenerInv(p, Put(s, g, x))
  {
    var t := Put(s, g, x);
    forall l | 0 <= l < |t.listeners| ensures ListenerOk(p, t, l) {
      assert ListenerOk(p, s, l);
    }
    forall h | 0 <= h < |t.handlers| ensures ListsOk(t, h) {
      assert ListsOk(s, h);
    }
  }

  lemma ListenerClosed(p: Params, s: State, l: nat)
    requires ListenerInv(p, s)
    ensures ListenerInv(p, CloseListener(s, l))
  {
    var t := CloseListener(s, l);
    forall m | 0 <= m < |t.listeners| ensures ListenerOk(p, t, m) {
      assert ListenerOk(p, s, m);
    }
    forall h | 0 <= h < |t.handlers| ensures ListsOk(t, h) {
      assert ListsOk(s, h);
      OwnsStays(s, l, h);
    }
  }

  lemma OwnsStays(s: State, l: nat, h: nat)
    requires h < |s.handlers| && ListsOk(s, h)
    ensures ListsOk(CloseListener(s, l), h)
  {
    var t, x := CloseListener(s, l), s.handlers[h];
    forall j | 0 <= j < |x.listeners| ensures Owns(t, h, x.listeners[j]) {
      assert Owns(s, h, x.listeners[j]);
    }
  }

  lemma CancelPreserves(p: Params, s: State, h: nat)
    requires ListenerInv(p, s) && ServeInv(p, s) && h < |s.handlers| && s.handlers[h].pc.DisplaceCancel?
    requires s.handlers[h].pc.prior < |s.handlers|
    ensures ServeInv(p, DisplaceStep(s, h))
  {
    var prior := s.handlers[h].pc.prior;
    var x := s.handlers[prior].(cancelled := true);
    FlagPreserves(p, s, prior, x);
    ListenerFlag(p, s, prior, x);
    var t := Put(s, prior, x);
    assert t == SetCancelled(s, prior);
    DisplacerMoves(p, t, h, DisplaceSnapshot(prior));
  }

  lemma SnapshotPreserves(p: Params, s: State, h: nat)
    requires ListenerInv(p, s) && ServeInv(p, s) && h < |s.handlers| && s.handlers[h].pc.DisplaceSnapshot?
    ensures ServeInv(p, DisplaceStep(s, h))
  {
    assert DisplacerOk(s, h);
    var prior := s.handlers[h].pc.prior;
    var lns := s.handlers[prior].listeners;
    var t := Goto(s, h, DisplaceClose(prior, lns, 0));
    assert ListsOk(s, prior);
    forall j | 0 <= j < |lns| ensures Owned(t, prior, lns[j]) {
      assert Owns(s, prior, lns[j]);
    }
    DisplacerMoves(p, s, h, DisplaceClose(prior, lns, 0));
  }

  lemma ClosingPreserves(p: Params, s: State, h: nat)
    requires ListenerInv(p, s) && ServeInv(p, s) && h < |s.handlers| && s.handlers[h].pc.DisplaceClose?
    ensures ServeInv(p, DisplaceStep(s, h))
  {
    assert DisplacerOk(s, h);
    var pc := s.handlers[h].pc;
    if pc.k < |pc.lns| {
      var l := pc.lns[pc.k];
      assert Owned(s, pc.prior, l);
      ClosePreserves(p, s, l);
      ListenerClosed(p, s, l);
      var t := CloseListener(s, l);
      assert DisplacerOk(t, h);
      ClosingOk(t, h);
      DisplacerMoves(p, t, h, DisplaceClose(pc.prior, pc.lns, pc.k + 1));
    } else {
      DisplacerMoves(p, s, h, DisplaceMux(pc.prior));
    }
  }

  lemma ClosingOk(s: State, h: nat)
    requires h < |s.handlers| && s.handlers[h].pc.DisplaceClose? && DisplacerOk(s, h)
    ensures var pc := s.handlers[h].pc; DisplacerOk(Goto(s, h, DisplaceClose(pc.prior, pc.lns, pc.k + 1)), h)
  {
    var pc := s.handlers[h].pc;
    var t := Goto(s, h, DisplaceClose(pc.prior, pc.lns, pc.k + 1));
    forall j | 0 <= j < |pc.lns| ensures Owned(t, pc.prior, pc.lns[j]) {
      assert Owned(s, pc.prior, pc.lns[j]);
    }
  }

  lemma MuxPreserves(p: Params, s: State, h: nat)
    requires ListenerInv(p, s) && ServeInv(p, s) && h < |s.handlers| && s.handlers[h].pc.DisplaceMux?
    ensures ServeInv(p, DisplaceStep(s, h))
  {
    assert DisplacerOk(s, h);
    var prior := s.handlers[h].pc.prior;
    var x := s.handlers[prior].(muxClosed := true);
    FlagPreserves(p, s, prior, x);
    ListenerFlag(p, s, prior, x);
    var t := Put(s, prior, x);
    assert t == SetMuxClosed(s, prior);
    DisplacerMoves(p, t, h, Listening(0));
  }

  // ------------------------------------------------------------ every step

  lemma ActPreserves(p: Params, s: State, h: nat, act: Act)
    requires ListenerInv(p, s) && ServeInv(p, s) && h < |s.handlers| && ActEnabled(p, s, h, act) && PriorEntered(s, h)
    ensures ServeInv(p, ActApply(p, s, h, act))
  {
    match act
    case Private(move) => MovePreserves(p, s, h, move);
    case ReleaseToken => ReleasePreserves(p, s, h, TokenReturned);
    case Register => RegisterPreserves(p, s, h);
    case Displace => DisplacePreserves(p, s, h);
    case BindOk => BindPreserves(p, s, h);
    case Spawn => SpawnPreserves(p, s, h);
    case LockRegistry =>
      LeavePreserves(p, s, h, Closing(0));
      SharedPreserves(p, Goto(s, h, Closing(0)), Unregister(s, h));
    case CloseOwn => CloseOwnPreserves(p, s, h);
    case Exit =>
      if s.handlers[h].semHeld {
        ReleasePreserves(p, s, h, Done);
      } else {
        LeavePreserves(p, s, h, Done);
      }
  }

  lemma DisplacePreserves(p: Params, s: State, h: nat)
    requires ListenerInv(p, s) && ServeInv(p, s) && h < |s.handlers| && IsDisplacing(s.handlers[h].pc) && PriorEntered(s, h)
    ensures ServeInv(p, DisplaceStep(s, h))
  {
    match s.handlers[h].pc
    case DisplaceCancel(_) => CancelPreserves(p, s, h);
    case DisplaceSnapshot(_) => SnapshotPreserves(p, s, h);
    case DisplaceClose(_, _, _) => ClosingPreserves(p, s, h);
    case DisplaceMux(_) => MuxPreserves(p, s, h);
  }

  lemma DeedPreserves(p: Params, s: State, x: nat, deed: Deed)
    requires ServeInv(p, s) && x < |s.proxies| && DeedEnabled(s, x, deed)
    ensures ServeInv(p, DeedApply(p, s, x, deed))
  {
    var t := DeedApply(p, s, x, deed);
    DeedKeepsHandlers(p, s, x, deed);
    forall h | 0 <= h < |s.handlers| ensures ServesOn(p, s, s.handlers[h], t.handlers[h], h) {
      assert t.handlers[h] == s.handlers[h].(slots := t.handlers[h].slots);
    }
    ServeStays(p, s, t, |s.handlers|);
  }

  lemma ConnPreserves(p: Params, s: State)
    requires ServeInv(p, s)
    ensures ServeInv(p, Apply(p, s, ConnArrives))
  {
    ServeStays(p, s, Apply(p, s, ConnArrives), |s.handlers|);
  }

  lemma CtxPreserves(p: Params, s: State)
    requires ServeInv(p, s)
    ensures ServeInv(p, s.(ctxDone := true))
  {
    ServeStays(p, s, s.(ctxDone := true), |s.handlers|);
  }

  lemma ServeStep(p: Params, s: State, step: Step)
    requires Inv(p, s) && PriorsEntered(s) && ServeInv(p, s) && Enabled(p, s, step)
    ensures ServeInv(p, Apply(p, s, step))
  {
    match step
    case ConnArrives => ConnPreserves(p, s);
    case CtxDone => CtxPreserves(p, s);
    case Handle(h, act) =>
      assert PriorEntered(s, h);
      ActPreserves(p, s, h, act);
    case CloserFires(l) => ClosePreserves(p, s, l);
    case UserArrives(_, _) => SharedPreserves(p, s, Apply(p, s, step));
    case Serve(x, deed) => DeedPreserves(p, s, x, deed);
  }

  lemma {:induction false} ServeRun(p: Params, s: State, steps: seq<Step>)
    requires Inv(p, s) && PriorsEntered(s) && ServeInv(p, s) && ValidRun(p, s, steps)
    ensures ServeInv(p, Exec(p, s, steps))
    decreases |steps|
  {
    if steps != [] {
      ServeStep(p, s, steps[0]);
      InvStep(p, s, steps[0]);
      PriorsStep(p, s, steps[0]);
      ServeRun(p, Apply(p, s, steps[0]), steps[1..]);
    }
  }

  lemma ServeReachable(p: Params, s: State)
    requires Reachable(p, s)
    ensures Inv(p, s) && ServeInv(p, s)
  {
    InvReachable(p, s);
    var steps :| ValidRun(p, INIT, steps) && Exec(p, INIT, steps) == s;
    ServeRun(p, INIT, steps);
  }
}
