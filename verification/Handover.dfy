/** Hand-over from one session of a client to its next, over whole runs. */
module Handover {
  import opened Bytes
  import opened SessionMachine
  import opened SessionInvariants

  /** The session has left its listen loop. */
  predicate LoopEnded(pc: Pc)
  {
    pc.Serving? || pc.Removing? || pc.Closing? || RemovalDone(pc)
  }

  /** A registration is clean when the client's previous session has left its listen loop. */
  ghost predicate CleanStep(s: State, step: Step)
  {
    step.Handle? && step.act.Register? && step.h < |s.handlers| ==>
      var n := Newest(s, s.handlers[step.h].client);
      n.Some? && n.value < |s.handlers| ==> LoopEnded(s.handlers[n.value].pc)
  }

  ghost predicate CleanRun(p: Params, s: State, steps: seq<Step>)
    decreases |steps|
  {
    steps == [] ||
    (Enabled(p, s, steps[0]) && CleanStep(s, steps[0]) && CleanRun(p, Apply(p, s, steps[0]), steps[1..]))
  }

  /** An open listener of a session of this client. */
  ghost predicate OpenFor(s: State, l: nat, client: Str)
  {
    l < |s.listeners| && s.listeners[l].open && s.listeners[l].owner < |s.handlers|
    && s.handlers[s.listeners[l].owner].client == client
  }

  /** The displacing session at pc has still to close l. */
  ghost predicate StillToClose(pc: Pc, l: nat)
  {
    || pc.DisplaceCancel? || pc.DisplaceSnapshot?
    || (pc.DisplaceClose? && exists j :: pc.k <= j < |pc.lns| && pc.lns[j] == l)
  }

  /** The newest session of the client, if there is one. */
  ghost predicate HasNewest(s: State, client: Str)
  {
    LogOf(s, client) != [] && forall i :: 0 <= i < |LogOf(s, client)| ==> LogOf(s, client)[i] < |s.handlers|
  }

  ghost function NewestPc(s: State, client: Str): (pc: Pc)
    requires HasNewest(s, client)
  {
    s.handlers[LogOf(s, client)[|LogOf(s, client)| - 1]].pc
  }

  /** While the newest session displaces its predecessor only the predecessor's listeners are open,
    * namely those it has still to close; otherwise only its own are. */
  ghost predicate HeldBy(s: State, client: Str, l: nat)
  {
    l < |s.listeners| && HasNewest(s, client) &&
    var log := LogOf(s, client);
    var pc := NewestPc(s, client);
    var n := |log|;
    if IsDisplacing(pc) then s.listeners[l].owner == pc.prior && StillToClose(pc, l)
    else s.listeners[l].owner == log[n - 1]
  }

  ghost predicate PriorOk(s: State, client: Str)
    requires HasNewest(s, client)
  {
    var log := LogOf(s, client);
    var pc := NewestPc(s, client);
    IsDisplacing(pc) ==>
      |log| >= 2 && pc.prior == log[|log| - 2] && (pc.DisplaceClose? ==> pc.lns == s.handlers[pc.prior].listeners)
  }

  ghost predicate OlderEnded(s: State, client: Str)
    requires HasNewest(s, client)
  {
    forall i :: 0 <= i < |LogOf(s, client)| - 1 ==> LoopEnded(s.handlers[LogOf(s, client)[i]].pc)
  }

  ghost predicate HandoverOk(s: State, client: Str)
  {
    && (LogOf(s, client) != [] ==> HasNewest(s, client) && OlderEnded(s, client) && PriorOk(s, client))
    && (forall l: nat :: OpenFor(s, l, client) ==> HeldBy(s, client, l))
  }

  ghost predicate HandoverInv(s: State)
  {
    forall c :: HandoverOk(s, c)
  }

  // ------------------------------------------------------------ steps that hand nothing over

  /** The handler stays out of, or as far as it was in, a displacement, and what it has listed
    * stays listed once its loop has ended. */
  ghost predicate Calm(x: Handler, y: Handler)
  {
    && (Entered(x.pc) ==>
          Entered(y.pc) && y.client == x.client && y.requested == x.requested
          && (NextPos(x) <= NextPos(y) || NextPos(y) >= |y.requested|))
    && (LoopEnded(x.pc) ==> LoopEnded(y.pc) && y.listeners == x.listeners)
    && IsDisplacing(x.pc) == IsDisplacing(y.pc) && (IsDisplacing(x.pc) ==> y.pc == x.pc)
  }

  ghost predicate CalmStep(s: State, t: State)
  {
    && t.log == s.log && |t.handlers| >= |s.handlers| && |t.listeners| == |s.listeners|
    && (forall h :: 0 <= h < |s.handlers| ==> Calm(s.handlers[h], t.handlers[h]))
    && (forall l :: 0 <= l < |s.listeners| ==> SameListener(s.listeners[l], t.listeners[l]))
  }

  /** Owners of listeners are past replaceSession, so their client is settled. */
  lemma OwnerEntered(p: Params, s: State, l: nat)
    requires ListenerInv(p, s) && l < |s.listeners|
    ensures s.listeners[l].owner < |s.handlers| && Entered(s.handlers[s.listeners[l].owner].pc)
  {
    assert ListenerOk(p, s, l);
  }

  lemma HandoverCalm(p: Params, s: State, t: State)
    requires ListenerInv(p, s) && RegistryInv(s) && HandoverInv(s) && CalmStep(s, t)
    ensures HandoverInv(t)
  {
    forall c ensures HandoverOk(t, c) {
      assert HandoverOk(s, c) && LogOk(s, c);
      assert LogOf(t, c) == LogOf(s, c);
      forall l: nat | OpenFor(t, l, c) ensures HeldBy(t, c, l) {
        OwnerEntered(p, s, l);
        assert SameListener(s.listeners[l], t.listeners[l]);
        assert OpenFor(s, l, c);
      }
    }
  }

  // ------------------------------------------------------------ steps that do

  /** Every open listener of a session whose loop has ended is in its list. */
  lemma EndedListed(p: Params, s: State, l: nat)
    requires ListenerInv(p, s) && l < |s.listeners| && s.listeners[l].open
    requires s.listeners[l].owner < |s.handlers| && LoopEnded(s.handlers[s.listeners[l].owner].pc)
    ensures !RemovalDone(s.handlers[s.listeners[l].owner].pc)
    ensures l in s.handlers[s.listeners[l].owner].listeners
  {
    assert ListenerOk(p, s, l);
  }

  /** With the mutex free, a session that is no longer registered has nothing open, so whatever is
    * open when h registers belongs to the session h displaces. */
  lemma OpenAtRegistration(p: Params, s: State, c: Str, l: nat)
    requires ListenerInv(p, s) && RegistryInv(s) && HandoverOk(s, c) && s.mu.None? && OpenFor(s, l, c)
    requires Newest(s, c).Some? ==> HasNewest(s, c) && LoopEnded(NewestPc(s, c))
    ensures c in s.registry && s.listeners[l].owner == s.registry[c]
  {
    assert HeldBy(s, c, l) && RegistryOk(s, c) && LogOk(s, c);
    EndedListed(p, s, l);
  }

  lemma HandoverRegister(p: Params, s: State, h: nat)
    requires Inv(p, s) && HandoverInv(s) && h < |s.handlers|
    requires s.handlers[h].pc.Registering? && s.mu.None? && CleanStep(s, Handle(h, Register))
    ensures HandoverInv(ReplaceSession(s, h))
  {
    var c := s.handlers[h].client;
    forall d ensures HandoverOk(ReplaceSession(s, h), d) {
      assert HandoverOk(s, d) && LogOk(s, d) && RegistryOk(s, d);
      if d == c {
        RegisterOwnClient(p, s, h);
      } else {
        RegisterOtherClient(p, s, h, d);
      }
    }
  }

  lemma RegisterOwnClient(p: Params, s: State, h: nat)
    requires ListenerInv(p, s) && RegistryInv(s) && h < |s.handlers|
    requires s.handlers[h].pc.Registering? && s.mu.None? && CleanStep(s, Handle(h, Register))
    requires HandoverOk(s, s.handlers[h].client) && LogOk(s, s.handlers[h].client)
    ensures HandoverOk(ReplaceSession(s, h), s.handlers[h].client)
  {
    var t := ReplaceSession(s, h);
    var c := s.handlers[h].client;
    var log := LogOf(s, c);
    assert LogOf(t, c) == log + [h] && RegistryOk(s, c) && h !in log;
    forall l: nat | OpenFor(t, l, c) ensures HeldBy(t, c, l) {
      OwnerEntered(p, s, l);
      assert OpenFor(s, l, c);
      OpenAtRegistration(p, s, c, l);
    }
  }

  lemma RegisterOtherClient(p: Params, s: State, h: nat, d: Str)
    requires ListenerInv(p, s) && h < |s.handlers| && s.handlers[h].pc.Registering?
    requires HandoverOk(s, d) && LogOk(s, d) && d != s.handlers[h].client
    ensures HandoverOk(ReplaceSession(s, h), d)
  {
    var t := ReplaceSession(s, h);
    assert LogOf(t, d) == LogOf(s, d) && h !in LogOf(s, d);
    forall l: nat | OpenFor(t, l, d) ensures HeldBy(t, d, l) {
      OwnerEntered(p, s, l);
      assert OpenFor(s, l, d);
    }
  }

  lemma BindHolds(p: Params, s: State, h: nat, d: Str, l: nat)
    requires Inv(p, s) && HandoverOk(s, d) && LogOk(s, d) && h < |s.handlers| && Wanted(p, s.handlers[h]).Some?
    requires Newest(s, s.handlers[h].client) == Some(h) && OpenFor(Bind(p, s, h), l, d)
    ensures HeldBy(Bind(p, s, h), d, l)
  {
    assert LogOf(Bind(p, s, h), d) == LogOf(s, d);
    if l < |s.listeners| {
      OwnerEntered(p, s, l);
      assert OpenFor(s, l, d);
    }
  }

  lemma HandoverBind(p: Params, s: State, h: nat)
    requires Inv(p, s) && HandoverInv(s) && h < |s.handlers| && Wanted(p, s.handlers[h]).Some?
    ensures HandoverInv(Bind(p, s, h))
  {
    NotEndedIsNewest(p, s, h);
    forall d ensures HandoverOk(Bind(p, s, h), d) {
      assert HandoverOk(s, d) && LogOk(s, d);
      BindHandover(p, s, h, d);
    }
  }

  lemma BindHandover(p: Params, s: State, h: nat, d: Str)
    requires Inv(p, s) && HandoverOk(s, d) && LogOk(s, d) && h < |s.handlers| && Wanted(p, s.handlers[h]).Some?
    requires Newest(s, s.handlers[h].client) == Some(h)
    ensures HandoverOk(Bind(p, s, h), d)
  {
    var t := Bind(p, s, h);
    assert LogOf(t, d) == LogOf(s, d);
    forall l: nat | OpenFor(t, l, d) ensures HeldBy(t, d, l) {
      BindHolds(p, s, h, d, l);
    }
  }

  /** A session still in its loop, or before it, is its client's newest. */
  lemma NotEndedIsNewest(p: Params, s: State, h: nat)
    requires Inv(p, s) && HandoverInv(s) && h < |s.handlers|
    requires Entered(s.handlers[h].pc) && !LoopEnded(s.handlers[h].pc)
    ensures Newest(s, s.handlers[h].client) == Some(h)
  {
    var c := s.handlers[h].client;
    assert LoggedOk(s, h) && HandoverOk(s, c);
    var log := LogOf(s, c);
    var i :| 0 <= i < |log| && log[i] == h;
    assert OlderEnded(s, c);
  }

  /** The displacing session makes one step; its predecessor is as it was, up to flags. */
  lemma HandoverDisplaced(p: Params, s: State, t: State, h: nat)
    requires Inv(p, s) && HandoverInv(s) && h < |s.handlers| && IsDisplacing(s.handlers[h].pc)
    requires Displaced(s, t, h) && t == DisplaceStep(s, h)
    requires |t.listeners| == |s.listeners|
    requires forall l :: 0 <= l < |s.listeners| ==> SameListener(s.listeners[l], t.listeners[l])
    ensures HandoverInv(t)
  {
    NotEndedIsNewest(p, s, h);
    forall d ensures HandoverOk(t, d) {
      assert HandoverOk(s, d) && LogOk(s, d);
      if d == s.handlers[h].client {
        OwnClient(p, s, t, h);
      } else {
        OtherClient(p, s, t, h, d);
      }
    }
  }

  lemma OwnClient(p: Params, s: State, t: State, h: nat)
    requires Inv(p, s) && h < |s.handlers| && IsDisplacing(s.handlers[h].pc)
    requires HandoverOk(s, s.handlers[h].client) && LogOk(s, s.handlers[h].client)
    requires Newest(s, s.handlers[h].client) == Some(h)
    requires Displaced(s, t, h) && t == DisplaceStep(s, h) && |t.listeners| == |s.listeners|
    requires forall l :: 0 <= l < |s.listeners| ==> SameListener(s.listeners[l], t.listeners[l])
    ensures HandoverOk(t, s.handlers[h].client)
  {
    var c := s.handlers[h].client;
    DisplacingOk(s, t, h);
    forall l: nat | OpenFor(t, l, c) ensures HeldBy(t, c, l) {
      OwnListenerHeld(p, s, t, h, l);
    }
  }

  lemma OwnListenerHeld(p: Params, s: State, t: State, h: nat, l: nat)
    requires Inv(p, s) && h < |s.handlers| && IsDisplacing(s.handlers[h].pc)
    requires HandoverOk(s, s.handlers[h].client) && LogOk(s, s.handlers[h].client)
    requires Newest(s, s.handlers[h].client) == Some(h)
    requires Displaced(s, t, h) && t == DisplaceStep(s, h) && |t.listeners| == |s.listeners|
    requires forall l :: 0 <= l < |s.listeners| ==> SameListener(s.listeners[l], t.listeners[l])
    requires OpenFor(t, l, s.handlers[h].client)
    ensures HeldBy(t, s.handlers[h].client, l)
  {
    var c := s.handlers[h].client;
    assert LogOf(t, c) == LogOf(s, c);
    assert NewestPc(s, c) == s.handlers[h].pc;
    OwnerEntered(p, s, l);
    assert SameListener(s.listeners[l], t.listeners[l]);
    assert OpenFor(s, l, c);
    EndedListed(p, s, l);
    StillToCloseStep(s, t, h, l);
  }

  lemma DisplacingOk(s: State, t: State, h: nat)
    requires h < |s.handlers| && IsDisplacing(s.handlers[h].pc) && t == DisplaceStep(s, h) && Displaced(s, t, h)
    requires HandoverOk(s, s.handlers[h].client) && LogOk(s, s.handlers[h].client)
    requires Newest(s, s.handlers[h].client) == Some(h)
    ensures var c := s.handlers[h].client;
            HasNewest(t, c) && OlderEnded(t, c) && PriorOk(t, c)
  {
    var c := s.handlers[h].client;
    var log := LogOf(s, c);
    var prior := s.handlers[h].pc.prior;
    assert LogOf(t, c) == log && NewestPc(s, c) == s.handlers[h].pc;
    assert prior != h && SameButFlags(s.handlers[prior], t.handlers[prior]);
  }

  lemma StillToCloseStep(s: State, t: State, h: nat, l: nat)
    requires h < |s.handlers| && IsDisplacing(s.handlers[h].pc) && t == DisplaceStep(s, h) && |t.handlers| == |s.handlers|
    requires StillToClose(s.handlers[h].pc, l) && l < |t.listeners| == |s.listeners| && t.listeners[l].open
    requires s.handlers[h].pc.prior < |s.handlers| && l in s.handlers[s.handlers[h].pc.prior].listeners
    ensures StillToClose(t.handlers[h].pc, l) && t.handlers[h].pc.prior == s.handlers[h].pc.prior
  {
    var pc := s.handlers[h].pc;
    if pc.DisplaceClose? {
      var j :| pc.k <= j < |pc.lns| && pc.lns[j] == l;
      assert j != pc.k;
    } else if pc.DisplaceSnapshot? {
      var lns := s.handlers[pc.prior].listeners;
      var j :| 0 <= j < |lns| && lns[j] == l;
      assert t.handlers[h].pc == DisplaceClose(pc.prior, lns, 0);
    }
  }

  lemma OtherClient(p: Params, s: State, t: State, h: nat, d: Str)
    requires Inv(p, s) && HandoverOk(s, d) && LogOk(s, d) && h < |s.handlers| && s.handlers[h].client != d
    requires Displaced(s, t, h) && LogOf(t, d) == LogOf(s, d) && |t.listeners| == |s.listeners|
    requires forall l :: 0 <= l < |s.listeners| ==> SameListener(s.listeners[l], t.listeners[l])
    ensures HandoverOk(t, d)
  {
    assert LogOf(s, d) != [] ==> HasNewest(t, d) && OlderEnded(t, d) && PriorOk(t, d) && NewestPc(t, d) == NewestPc(s, d);
    forall l: nat | OpenFor(t, l, d) ensures HeldBy(t, d, l) {
      assert SameListener(s.listeners[l], t.listeners[l]);
      OwnerEntered(p, s, l);
      assert SameButFlags(s.handlers[s.listeners[l].owner], t.handlers[s.listeners[l].owner]);
      assert OpenFor(s, l, d);
    }
  }

  lemma CalmMove(p: Params, x: Handler, move: Move)
    requires MoveEnabled(p, x, move)
    ensures Calm(x, Moved(p, x, move))
  {}

  lemma CalmPut(s: State, t: State, h: nat)
    requires h < |s.handlers| && |t.handlers| == |s.handlers| && t.handlers == s.handlers[h := t.handlers[h]]
    requires Calm(s.handlers[h], t.handlers[h]) && t.log == s.log && |t.listeners| == |s.listeners|
    requires forall l :: 0 <= l < |s.listeners| ==> SameListener(s.listeners[l], t.listeners[l])
    ensures CalmStep(s, t)
  {}

  /** The acts that hand nothing over. */
  lemma CalmAct(p: Params, s: State, h: nat, act: Act)
    requires h < |s.handlers| && ActEnabled(p, s, h, act) && !act.Register? && !act.BindOk? && !act.Displace?
    ensures CalmStep(s, ActApply(p, s, h, act))
  {
    var x := s.handlers[h];
    match act
    case Private(move) => CalmPrivate(p, s, h, move);
    case CloseOwn => CalmCloseOwn(s, h);
    case Spawn => CalmSpawn(s, h);
    case LockRegistry => CalmPut(s, Unregister(s, h), h);
    case ReleaseToken => CalmRelease(s, h, TokenReturned);
    case Exit =>
      if x.semHeld {
        CalmRelease(s, h, Done);
      } else {
        CalmPut(s, Goto(s, h, Done), h);
      }
  }

  lemma CalmRelease(s: State, h: nat, pc: Pc)
    requires h < |s.handlers| && s.tokens > 0
    requires (s.handlers[h].pc.SettingUp? && pc == TokenReturned) || (s.handlers[h].pc.Exiting? && pc == Done)
    ensures CalmStep(s, Release(s, h, pc))
  {
    CalmPut(s, Release(s, h, pc), h);
  }

  lemma CalmPrivate(p: Params, s: State, h: nat, move: Move)
    requires h < |s.handlers| && MoveEnabled(p, s.handlers[h], move)
    ensures CalmStep(s, Put(s, h, Moved(p, s.handlers[h], move)))
  {
    CalmMove(p, s.handlers[h], move);
    CalmPut(s, Put(s, h, Moved(p, s.handlers[h], move)), h);
  }

  lemma CalmSpawn(s: State, h: nat)
    requires h < |s.handlers| && s.handlers[h].pc.Appended?
    ensures var x := s.handlers[h]; CalmStep(s, Goto(Watch(s, x.pc.l), h, Listening(x.pc.i + 1)))
  {
    var x := s.handlers[h];
    CalmPut(s, Goto(Watch(s, x.pc.l), h, Listening(x.pc.i + 1)), h);
  }

  lemma CalmCloseOwn(s: State, h: nat)
    requires h < |s.handlers| && s.handlers[h].pc.Closing?
    ensures CalmStep(s, CloseOwnStep(s, h))
  {
    var x := s.handlers[h];
    if x.pc.k < |x.listeners| {
      CalmPut(s, Goto(CloseListener(s, x.listeners[x.pc.k]), h, Closing(x.pc.k + 1)), h);
    } else {
      CalmPut(s, Goto(s, h, ClosingMux).(mu := None), h);
    }
  }

  lemma HandoverAct(p: Params, s: State, h: nat, act: Act)
    requires Inv(p, s) && HandoverInv(s) && h < |s.handlers| && ActEnabled(p, s, h, act) && CleanStep(s, Handle(h, act))
    ensures HandoverInv(ActApply(p, s, h, act))
  {
    match act
    case Register => HandoverRegister(p, s, h);
    case BindOk => HandoverBind(p, s, h);
    case Displace => HandoverDisplace(p, s, h);
    case _ =>
      CalmAct(p, s, h, act);
      HandoverCalm(p, s, ActApply(p, s, h, act));
  }

  lemma HandoverDisplace(p: Params, s: State, h: nat)
    requires Inv(p, s) && HandoverInv(s) && h < |s.handlers| && IsDisplacing(s.handlers[h].pc)
    ensures HandoverInv(DisplaceStep(s, h))
  {
    DisplaceEffect(s, h);
    DisplaceCloses(s, h);
    HandoverDisplaced(p, s, DisplaceStep(s, h), h);
  }

  lemma DisplaceCloses(s: State, h: nat)
    requires h < |s.handlers| && IsDisplacing(s.handlers[h].pc)
    ensures var t := DisplaceStep(s, h);
            |t.listeners| == |s.listeners|
            && forall l :: 0 <= l < |s.listeners| ==> SameListener(s.listeners[l], t.listeners[l])
  {
    var pc := s.handlers[h].pc;
    if pc.DisplaceClose? && pc.k < |pc.lns| {
      CloseKeeps(s, pc.lns[pc.k]);
      assert DisplaceStep(s, h).listeners == CloseListener(s, pc.lns[pc.k]).listeners;
    } else {
      assert DisplaceStep(s, h).listeners == s.listeners;
    }
  }

  lemma CloseKeeps(s: State, m: nat)
    ensures var t := CloseListener(s, m);
            |t.listeners| == |s.listeners|
            && forall l :: 0 <= l < |s.listeners| ==> SameListener(s.listeners[l], t.listeners[l])
  {}

  lemma CalmOther(p: Params, s: State, step: Step)
    requires Enabled(p, s, step) && !step.Handle? && !step.Serve?
    ensures CalmStep(s, Apply(p, s, step))
  {}

  lemma CalmDeed(p: Params, s: State, x: nat, deed: Deed)
    requires x < |s.proxies| && DeedEnabled(s, x, deed)
    ensures CalmStep(s, DeedApply(p, s, x, deed))
  {
    DeedKeepsHandlers(p, s, x, deed);
  }

  lemma HandoverStep(p: Params, s: State, step: Step)
    requires Inv(p, s) && HandoverInv(s) && Enabled(p, s, step) && CleanStep(s, step)
    ensures HandoverInv(Apply(p, s, step))
  {
    match step
    case Handle(h, act) => HandoverAct(p, s, h, act);
    case Serve(x, deed) =>
      CalmDeed(p, s, x, deed);
      HandoverCalm(p, s, DeedApply(p, s, x, deed));
    case _ =>
      CalmOther(p, s, step);
      HandoverCalm(p, s, Apply(p, s, step));
  }

  // ------------------------------------------------------------ whole runs

  lemma {:induction false} HandoverRun(p: Params, s: State, steps: seq<Step>)
    requires Inv(p, s) && HandoverInv(s) && CleanRun(p, s, steps)
    ensures ValidRun(p, s, steps) && Inv(p, Exec(p, s, steps)) && HandoverInv(Exec(p, s, steps))
    decreases |steps|
  {
    if steps != [] {
      InvStep(p, s, steps[0]);
      HandoverStep(p, s, steps[0]);
      HandoverRun(p, Apply(p, s, steps[0]), steps[1..]);
    }
  }

  /** Reached by a run in which every session of a client ends its listen loop before that
    * client's next session registers. */
  ghost predicate CleanlyReached(p: Params, s: State)
  {
    exists steps :: CleanRun(p, INIT, steps) && ValidRun(p, INIT, steps) && Exec(p, INIT, steps) == s
  }

  lemma HandoverReached(p: Params, s: State)
    requires CleanlyReached(p, s)
    ensures Inv(p, s) && HandoverInv(s)
  {
    var steps :| CleanRun(p, INIT, steps) && ValidRun(p, INIT, steps) && Exec(p, INIT, steps) == s;
    HandoverRun(p, INIT, steps);
  }

  /** At any moment of a clean run all open listeners of a client belong to one session, and once
    * the newest session has finished displacing, to that one. */
  lemma OneSessionListens(p: Params, s: State, l: nat, m: nat)
    requires CleanlyReached(p, s)
    requires l < |s.listeners| && m < |s.listeners| && s.listeners[l].open && s.listeners[m].open
    ensures var h, g := s.listeners[l].owner, s.listeners[m].owner;
            && h < |s.handlers| && g < |s.handlers|
            && (s.handlers[h].client == s.handlers[g].client ==>
                  && h == g
                  && var n := Newest(s, s.handlers[h].client);
                     n.Some? && n.value < |s.handlers| && (h != n.value ==> IsDisplacing(s.handlers[n.value].pc)))
  {
    HandoverReached(p, s);
    OwnerEntered(p, s, l);
    OwnerEntered(p, s, m);
    var c := s.handlers[s.listeners[l].owner].client;
    assert HandoverOk(s, c) && OpenFor(s, l, c);
    if s.handlers[s.listeners[m].owner].client == c {
      assert OpenFor(s, m, c);
    }
  }
}
