/** What keeps a handler waiting, and how much a session still has to do. */
module Progress {
  import opened Bytes
  import opened SessionMachine
  import opened SessionInvariants
  import opened Handover
  import ServerGuarantees

  // ------------------------------------------------------------ what a handler waits for

  /** The handshake, and the session once it serves, go on when the peer or the network does. */
  predicate WaitsForPeer(x: Handler)
  {
    x.pc.Handshaking? || (x.pc.Serving? && !x.muxClosed)
  }

  predicate WaitsForLock(pc: Pc)
  {
    pc.Registering? || pc.Removing?
  }

  /** What a handler that waits for nobody does next. At a bind this is what net.Listen does. */
  function NextAct(p: Params, s: State, h: nat): (act: Act)
    requires h < |s.handlers|
  {
    var x := s.handlers[h];
    match x.pc
    case SettingUp => ReleaseToken
    case TokenReturned => Private(ClearHeld)
    case Registering => Register
    case Listening(_) =>
      if !InLoop(x) then Private(LoopEnds)
      else if Wanted(p, x).None? then Private(SkipUnknown)
      else if AddrFree(p, s, Wanted(p, x).value) then BindOk
      else Private(BindFails)
    case Bound(_, _) => Private(Append)
    case Appended(_, _) => Spawn
    case Serving => Private(SeeClosed)
    case Removing => LockRegistry
    case Closing(_) => CloseOwn
    case ClosingMux => Private(CloseMux)
    case CancellingSelf => Private(CancelSelf)
    case Exiting => Exit
    case _ => Displace
  }

  /** Besides its peer and the two receives from handshakeSem, only the mutex can keep a handler waiting. */
  lemma NextActWaitsForLock(p: Params, s: State, h: nat)
    requires h < |s.handlers| && !s.handlers[h].pc.Done? && !WaitsForPeer(s.handlers[h])
    requires s.handlers[h].pc.SettingUp? ==> Enabled(p, s, Handle(h, ReleaseToken))
    requires s.handlers[h].pc.Exiting? ==> Enabled(p, s, Handle(h, Exit))
    ensures ActEnabled(p, s, h, NextAct(p, s, h)) || (WaitsForLock(s.handlers[h].pc) && s.mu.Some?)
  {}

  /** Whoever holds the mutex over several steps is closing its listeners. */
  lemma LockHolderCloses(p: Params, s: State)
    requires Reachable(p, s)
    ensures s.mu.Some? ==> s.mu.value < |s.handlers| && s.handlers[s.mu.value].pc.Closing?
  {
    InvReachable(p, s);
  }

  /** No deadlock: a handler that is not done waits for its peer, or can act at once, or is about to
    * take the mutex and the session that holds it can act at once. */
  lemma HandlersCanProceed(p: Params, s: State, h: nat)
    requires Reachable(p, s) && h < |s.handlers| && !s.handlers[h].pc.Done?
    ensures || WaitsForPeer(s.handlers[h])
            || Enabled(p, s, Handle(h, NextAct(p, s, h)))
            || (WaitsForLock(s.handlers[h].pc) && s.mu.Some? && s.mu.value < |s.handlers|
                && Enabled(p, s, Handle(s.mu.value, CloseOwn)))
  {
    if !WaitsForPeer(s.handlers[h]) {
      ServerGuarantees.ReleaseNeverBlocks(p, s, h);
      NextActWaitsForLock(p, s, h);
      LockHolderCloses(p, s);
    }
  }

  // ------------------------------------------------------------ how much is left to do

  function Clip(n: int): (r: nat)
  {
    if n < 0 then 0 else n
  }

  /** How many listeners a session may still list. */
  function ListsLeft(x: Handler): (n: nat)
  {
    var r := |x.requested|;
    match x.pc
    case Listening(i) => Clip(r - i)
    case Bound(i, _) => Clip(r - i - 1) + 1
    case Appended(i, _) => Clip(r - i - 1)
    case _ => if IsDisplacing(x.pc) then r else 0
  }

  /** The length that a session's list of listeners will not exceed. */
  function ListBound(x: Handler): (n: nat)
  {
    |x.listeners| + ListsLeft(x)
  }

  function PriorBound(s: State, prior: nat): (n: nat)
  {
    if prior < |s.handlers| then ListBound(s.handlers[prior]) else 0
  }

  /** An upper bound of the steps a registered session still has to take. */
  function Rank(s: State, h: nat): (n: nat)
    requires h < |s.handlers|
  {
    var x := s.handlers[h];
    var r, l := |x.requested|, |x.listeners|;
    match x.pc
    case DisplaceCancel(prior) => PriorBound(s, prior) + 4 * r + l + 11
    case DisplaceSnapshot(prior) => PriorBound(s, prior) + 4 * r + l + 10
    case DisplaceClose(_, lns, k) => Clip(|lns| - k) + 4 * r + l + 9
    case DisplaceMux(_) => 4 * r + l + 8
    case Listening(i) => 4 * Clip(r - i) + l + 7
    case Bound(i, _) => 4 * Clip(r - i - 1) + l + 10
    case Appended(i, _) => 4 * Clip(r - i - 1) + l + 8
    case Serving => l + 6
    case Removing => l + 5
    case Closing(k) => Clip(l - k) + 4
    case ClosingMux => 3
    case CancellingSelf => 2
    case Exiting => 1
    case _ => 0
  }

  /** A step of the session itself; that its mux dies under it is not one. */
  predicate IsOwn(step: Step, h: nat)
  {
    step.Handle? && step.h == h && step.act != Private(MuxDies)
  }

  function OwnSteps(steps: seq<Step>, h: nat): (n: nat)
  {
    if steps == [] then 0 else (if IsOwn(steps[0], h) then 1 else 0) + OwnSteps(steps[1..], h)
  }

  // ------------------------------------------------------------ lists do not outgrow their bound

  ghost predicate Settled(x: Handler, y: Handler)
  {
    Entered(x.pc) ==> Entered(y.pc) && y.requested == x.requested && ListBound(y) <= ListBound(x)
  }

  ghost predicate AllSettled(s: State, t: State)
  {
    |t.handlers| >= |s.handlers| && forall h :: 0 <= h < |s.handlers| ==> Settled(s.handlers[h], t.handlers[h])
  }

  lemma MoveSettles(p: Params, x: Handler, move: Move)
    requires MoveEnabled(p, x, move)
    ensures Settled(x, Moved(p, x, move))
  {}

  lemma PcSettles(act: Act, x: Handler, y: Handler)
    requires Leads(act, x.pc, y.pc) && MovesOnlyPc(act) && y == x.(pc := y.pc)
    requires act.BindOk? ==> InLoop(x)
    ensures Settled(x, y)
  {}

  lemma DisplaceSettles(s: State, t: State, h: nat)
    requires h < |s.handlers| && IsDisplacing(s.handlers[h].pc) && Displaced(s, t, h)
    ensures AllSettled(s, t)
  {
    forall g | 0 <= g < |s.handlers| ensures Settled(s.handlers[g], t.handlers[g]) {
      assert SameButFlags(s.handlers[g], t.handlers[g]);
    }
  }

  lemma ActSettles(p: Params, s: State, h: nat, act: Act)
    requires h < |s.handlers| && ActEnabled(p, s, h, act)
    ensures AllSettled(s, ActApply(p, s, h, act))
  {
    match act
    case Private(move) => MoveSettles(p, s.handlers[h], move);
    case Displace =>
      DisplaceEffect(s, h);
      DisplaceSettles(s, DisplaceStep(s, h), h);
    case ReleaseToken =>
    case Exit =>
    case _ =>
      PcEffect(p, s, h, act);
      PcSettles(act, s.handlers[h], ActApply(p, s, h, act).handlers[h]);
  }

  lemma StepSettles(p: Params, s: State, step: Step)
    requires Enabled(p, s, step)
    ensures AllSettled(s, Apply(p, s, step))
  {
    match step
    case Handle(h, act) => ActSettles(p, s, h, act);
    case Serve(x, deed) => DeedKeepsHandlers(p, s, x, deed);
    case _ =>
  }

  // ------------------------------------------------------------ whom a session displaces

  ghost predicate PriorEntered(s: State, h: nat)
    requires h < |s.handlers|
  {
    IsDisplacing(s.handlers[h].pc) ==>
      s.handlers[h].pc.prior < |s.handlers| && Entered(s.handlers[s.handlers[h].pc.prior].pc)
  }

  ghost predicate PriorsEntered(s: State)
  {
    forall h :: 0 <= h < |s.handlers| ==> PriorEntered(s, h)
  }

  /** A handler comes to displace only by registering, and sticks to whom it displaces. */
  ghost predicate SamePrior(x: Handler, y: Handler)
  {
    IsDisplacing(y.pc) ==> IsDisplacing(x.pc) && y.pc.prior == x.pc.prior
  }

  lemma PriorsStay(s: State, t: State)
    requires PriorsEntered(s) && AllSettled(s, t)
    requires forall h :: 0 <= h < |s.handlers| ==> SamePrior(s.handlers[h], t.handlers[h])
    requires forall h :: |s.handlers| <= h < |t.handlers| ==> !IsDisplacing(t.handlers[h].pc)
    ensures PriorsEntered(t)
  {
    forall h | 0 <= h < |t.handlers| ensures PriorEntered(t, h) {
      if IsDisplacing(t.handlers[h].pc) {
        assert PriorEntered(s, h) && SamePrior(s.handlers[h], t.handlers[h]);
        assert Settled(s.handlers[t.handlers[h].pc.prior], t.handlers[t.handlers[h].pc.prior]);
      }
    }
  }

  lemma CalmSamePrior(s: State, t: State)
    requires CalmStep(s, t)
    ensures forall h :: 0 <= h < |s.handlers| ==> SamePrior(s.handlers[h], t.handlers[h])
  {
    forall h | 0 <= h < |s.handlers| ensures SamePrior(s.handlers[h], t.handlers[h]) {
      assert Calm(s.handlers[h], t.handlers[h]);
    }
  }

  lemma RegisterPriors(p: Params, s: State, h: nat)
    requires RegistryInv(s) && PriorsEntered(s) && h < |s.handlers| && Enabled(p, s, Handle(h, Register))
    ensures PriorsEntered(ReplaceSession(s, h))
  {
    var t, c := ReplaceSession(s, h), s.handlers[h].client;
    assert LogOk(s, c) && RegistryOk(s, c);
    forall g | 0 <= g < |t.handlers| ensures PriorEntered(t, g) {
      assert PriorEntered(s, g);
    }
  }

  lemma DisplacePriors(s: State, h: nat)
    requires PriorsEntered(s) && h < |s.handlers| && IsDisplacing(s.handlers[h].pc)
    ensures PriorsEntered(DisplaceStep(s, h))
  {
    var t := DisplaceStep(s, h);
    DisplaceEffect(s, h);
    DisplaceSettles(s, t, h);
    assert SamePrior(s.handlers[h], t.handlers[h]);
    PriorsStay(s, t);
  }

  lemma NewHandlersIdle(p: Params, s: State, step: Step)
    requires Enabled(p, s, step)
    ensures var t := Apply(p, s, step);
            forall h :: |s.handlers| <= h < |t.handlers| ==> !IsDisplacing(t.handlers[h].pc)
  {
    if step.Serve? {
      DeedKeepsHandlers(p, s, step.x, step.deed);
    } else if step.Handle? {
      ActAddsNone(p, s, step.h, step.act);
    }
  }

  lemma ActAddsNone(p: Params, s: State, h: nat, act: Act)
    requires h < |s.handlers| && ActEnabled(p, s, h, act)
    ensures |ActApply(p, s, h, act).handlers| == |s.handlers|
  {
    if act.Displace? {
      DisplaceEffect(s, h);
    } else if MovesOnlyPc(act) {
      PcEffect(p, s, h, act);
    }
  }

  lemma BindSamePrior(p: Params, s: State, h: nat)
    requires h < |s.handlers| && Wanted(p, s.handlers[h]).Some?
    ensures forall g :: 0 <= g < |s.handlers| ==> SamePrior(s.handlers[g], Bind(p, s, h).handlers[g])
  {}

  lemma PriorsStep(p: Params, s: State, step: Step)
    requires Inv(p, s) && PriorsEntered(s) && Enabled(p, s, step)
    ensures PriorsEntered(Apply(p, s, step))
  {
    var t := Apply(p, s, step);
    if step.Handle? && step.act.Register? {
      RegisterPriors(p, s, step.h);
    } else if step.Handle? && step.act.Displace? {
      DisplacePriors(s, step.h);
    } else {
      StepSettles(p, s, step);
      NewHandlersIdle(p, s, step);
      if step.Handle? && step.act.BindOk? {
        BindSamePrior(p, s, step.h);
      } else {
        if step.Handle? {
          CalmAct(p, s, step.h, step.act);
        } else if step.Serve? {
          CalmDeed(p, s, step.x, step.deed);
        } else {
          CalmOther(p, s, step);
        }
        CalmSamePrior(s, t);
      }
      PriorsStay(s, t);
    }
  }

  lemma {:induction false} PriorsRun(p: Params, s: State, steps: seq<Step>)
    requires Inv(p, s) && PriorsEntered(s) && ValidRun(p, s, steps)
    ensures PriorsEntered(Exec(p, s, steps))
    decreases |steps|
  {
    if steps != [] {
      InvStep(p, s, steps[0]);
      PriorsStep(p, s, steps[0]);
      PriorsRun(p, Apply(p, s, steps[0]), steps[1..]);
    }
  }

  lemma PriorsReachable(p: Params, s: State)
    requires Reachable(p, s)
    ensures Inv(p, s) && PriorsEntered(s)
  {
    InvReachable(p, s);
    var steps :| ValidRun(p, INIT, steps) && Exec(p, INIT, steps) == s;
    PriorsRun(p, INIT, steps);
  }

  // ------------------------------------------------------------ own steps use up the rank

  lemma OwnMoveFalls(p: Params, s: State, h: nat, move: Move)
    requires h < |s.handlers| && Entered(s.handlers[h].pc) && MoveEnabled(p, s.handlers[h], move) && !move.MuxDies?
    ensures Rank(Put(s, h, Moved(p, s.handlers[h], move)), h) < Rank(s, h)
  {}

  /** Where a step of displacement leads. */
  function DisplacedPc(s: State, h: nat): (pc: Pc)
    requires h < |s.handlers|
  {
    match s.handlers[h].pc
    case DisplaceCancel(prior) => DisplaceSnapshot(prior)
    case DisplaceSnapshot(prior) => DisplaceClose(prior, if prior < |s.handlers| then s.handlers[prior].listeners else [], 0)
    case DisplaceClose(prior, lns, k) => if k < |lns| then DisplaceClose(prior, lns, k + 1) else DisplaceMux(prior)
    case _ => Listening(0)
  }

  lemma DisplaceGoesTo(s: State, h: nat)
    requires h < |s.handlers| && IsDisplacing(s.handlers[h].pc)
    ensures |DisplaceStep(s, h).handlers| == |s.handlers| && DisplaceStep(s, h).handlers[h].pc == DisplacedPc(s, h)
  {
    match s.handlers[h].pc
    case DisplaceCancel(prior) => GotoGoes(SetCancelled(s, prior), h, DisplacedPc(s, h));
    case DisplaceSnapshot(prior) => GotoGoes(s, h, DisplacedPc(s, h));
    case DisplaceClose(prior, lns, k) =>
      GotoGoes(if k < |lns| then CloseListener(s, lns[k]) else s, h, DisplacedPc(s, h));
    case DisplaceMux(prior) => GotoGoes(SetMuxClosed(s, prior), h, DisplacedPc(s, h));
  }

  lemma GotoGoes(s: State, h: nat, pc: Pc)
    requires h < |s.handlers|
    ensures |Goto(s, h, pc).handlers| == |s.handlers| && Goto(s, h, pc).handlers[h].pc == pc
  {}

  lemma DisplacedRankFalls(s: State, t: State, h: nat)
    requires h < |s.handlers| && IsDisplacing(s.handlers[h].pc) && PriorEntered(s, h) && AllSettled(s, t)
    requires SameButFlags(s.handlers[h], t.handlers[h]) && t.handlers[h].pc == DisplacedPc(s, h)
    ensures Rank(t, h) < Rank(s, h)
  {
    var prior := s.handlers[h].pc.prior;
    assert Settled(s.handlers[prior], t.handlers[prior]);
  }

  lemma OwnDisplaceFalls(s: State, h: nat)
    requires h < |s.handlers| && IsDisplacing(s.handlers[h].pc) && PriorEntered(s, h)
    requires Displaced(s, DisplaceStep(s, h), h)
    ensures Rank(DisplaceStep(s, h), h) < Rank(s, h)
  {
    DisplaceGoesTo(s, h);
    DisplaceSettles(s, DisplaceStep(s, h), h);
    assert SameButFlags(s.handlers[h], DisplaceStep(s, h).handlers[h]);
    DisplacedRankFalls(s, DisplaceStep(s, h), h);
  }

  lemma OwnActFalls(p: Params, s: State, h: nat, act: Act)
    requires h < |s.handlers| && Entered(s.handlers[h].pc) && ActEnabled(p, s, h, act) && act != Private(MuxDies)
    requires PriorEntered(s, h)
    ensures |ActApply(p, s, h, act).handlers| == |s.handlers| && Rank(ActApply(p, s, h, act), h) < Rank(s, h)
  {
    ActAddsNone(p, s, h, act);
    match act
    case Private(move) => OwnMoveFalls(p, s, h, move);
    case Displace =>
      DisplaceEffect(s, h);
      OwnDisplaceFalls(s, h);
    case Exit =>
    case _ => PcEffect(p, s, h, act);
  }

  /** Others do not add to what a session has to do. */
  ghost predicate Untouched(x: Handler, y: Handler)
  {
    y.pc == x.pc && y.requested == x.requested && y.listeners == x.listeners
  }

  lemma RankKept(s: State, t: State, h: nat)
    requires h < |s.handlers| && AllSettled(s, t) && PriorEntered(s, h) && Untouched(s.handlers[h], t.handlers[h])
    ensures Rank(t, h) <= Rank(s, h)
  {
    var pc := s.handlers[h].pc;
    assert IsDisplacing(pc) ==> Settled(s.handlers[pc.prior], t.handlers[pc.prior]);
  }

  lemma OthersUntouch(p: Params, s: State, step: Step, h: nat)
    requires Enabled(p, s, step) && !IsOwn(step, h) && h < |s.handlers|
    ensures h < |Apply(p, s, step).handlers| && Untouched(s.handlers[h], Apply(p, s, step).handlers[h])
  {
    match step
    case Serve(x, deed) => DeedKeepsHandlers(p, s, x, deed);
    case Handle(g, act) => ActUntouches(p, s, g, act, h);
    case _ =>
  }

  lemma ActUntouches(p: Params, s: State, g: nat, act: Act, h: nat)
    requires g < |s.handlers| && h < |s.handlers| && ActEnabled(p, s, g, act) && (g != h || act == Private(MuxDies))
    ensures |ActApply(p, s, g, act).handlers| == |s.handlers| && Untouched(s.handlers[h], ActApply(p, s, g, act).handlers[h])
  {
    if act.Displace? {
      DisplaceEffect(s, g);
      assert SameButFlags(s.handlers[h], DisplaceStep(s, g).handlers[h]);
    } else if MovesOnlyPc(act) {
      PcEffect(p, s, g, act);
    }
  }

  lemma RankStep(p: Params, s: State, step: Step, h: nat)
    requires Enabled(p, s, step) && h < |s.handlers| && Entered(s.handlers[h].pc) && PriorEntered(s, h)
    ensures h < |Apply(p, s, step).handlers| && Entered(Apply(p, s, step).handlers[h].pc)
    ensures Rank(Apply(p, s, step), h) + (if IsOwn(step, h) then 1 else 0) <= Rank(s, h)
  {
    StepSettles(p, s, step);
    assert Settled(s.handlers[h], Apply(p, s, step).handlers[h]);
    if IsOwn(step, h) {
      OwnActFalls(p, s, h, step.act);
    } else {
      OthersUntouch(p, s, step, h);
      RankKept(s, Apply(p, s, step), h);
    }
  }

  lemma {:induction false} RankRun(p: Params, s: State, steps: seq<Step>, h: nat)
    requires Inv(p, s) && PriorsEntered(s) && ValidRun(p, s, steps) && h < |s.handlers| && Entered(s.handlers[h].pc)
    ensures h < |Exec(p, s, steps).handlers| && Entered(Exec(p, s, steps).handlers[h].pc)
    ensures OwnSteps(steps, h) + Rank(Exec(p, s, steps), h) <= Rank(s, h)
    decreases |steps|
  {
    if steps != [] {
      assert PriorEntered(s, h);
      RankStep(p, s, steps[0], h);
      InvStep(p, s, steps[0]);
      PriorsStep(p, s, steps[0]);
      RankRun(p, Apply(p, s, steps[0]), steps[1..], h);
    }
  }

  /** What a session that has yet to look at its predecessor's listeners may find there. */
  function PriorLoad(s: State, h: nat): (n: nat)
    requires h < |s.handlers|
  {
    match s.handlers[h].pc
    case DisplaceCancel(prior) => PriorBound(s, prior)
    case DisplaceSnapshot(prior) => PriorBound(s, prior)
    case DisplaceClose(_, lns, _) => |lns|
    case _ => 0
  }

  lemma RankBound(s: State, h: nat)
    requires h < |s.handlers| && Entered(s.handlers[h].pc) && NextPos(s.handlers[h]) <= |s.handlers[h].requested|
    ensures var x := s.handlers[h];
            Rank(s, h) <= 4 * (|x.requested| - NextPos(x)) + |x.listeners| + PriorLoad(s, h) + 11
    ensures Rank(s, h) == 0 <==> s.handlers[h].pc.Done?
  {}

  lemma {:induction false} MuxStaysClosed(p: Params, s: State, steps: seq<Step>, h: nat)
    requires ValidRun(p, s, steps) && h < |s.handlers| && s.handlers[h].muxClosed
    ensures h < |Exec(p, s, steps).handlers| && Exec(p, s, steps).handlers[h].muxClosed
    decreases |steps|
  {
    if steps != [] {
      MuxStepStays(p, s, steps[0], h);
      MuxStaysClosed(p, Apply(p, s, steps[0]), steps[1..], h);
    }
  }

  lemma MuxStepStays(p: Params, s: State, step: Step, h: nat)
    requires Enabled(p, s, step) && h < |s.handlers| && s.handlers[h].muxClosed
    ensures h < |Apply(p, s, step).handlers| && Apply(p, s, step).handlers[h].muxClosed
  {
    match step
    case Serve(x, deed) => DeedKeepsHandlers(p, s, x, deed);
    case Handle(g, act) =>
      if MovesOnlyPc(act) {
        PcEffect(p, s, g, act);
      } else if act.Displace? {
        DisplaceMuxStays(s, g, h);
      } else {
        assert Apply(p, s, step).handlers == s.handlers[g := Apply(p, s, step).handlers[g]];
      }
    case _ =>
  }

  lemma DisplaceMuxStays(s: State, g: nat, h: nat)
    requires g < |s.handlers| && h < |s.handlers| && IsDisplacing(s.handlers[g].pc) && s.handlers[h].muxClosed
    ensures |DisplaceStep(s, g).handlers| == |s.handlers| && DisplaceStep(s, g).handlers[h].muxClosed
  {
    match s.handlers[g].pc
    case DisplaceCancel(prior) => assert SetCancelled(s, prior).handlers[h].muxClosed;
    case DisplaceSnapshot(prior) =>
    case DisplaceClose(prior, lns, k) =>
    case DisplaceMux(prior) => assert SetMuxClosed(s, prior).handlers[h].muxClosed;
  }

  lemma ReachRun(p: Params, s: State, steps: seq<Step>)
    requires Reachable(p, s) && ValidRun(p, s, steps)
    ensures Reachable(p, Exec(p, s, steps))
    decreases |steps|
  {
    if steps != [] {
      ReachStep(p, s, steps[0]);
      ReachRun(p, Apply(p, s, steps[0]), steps[1..]);
    }
  }

  /** A registered session whose mux has closed takes a bounded number of steps of its own in any run,
    * four for each name ahead of it, one for each listener, and a few more; until it is done it can
    * always take the next, or waits for the mutex while its holder can act. */
  lemma ClosedSessionFinishes(p: Params, s: State, steps: seq<Step>, h: nat)
    requires Reachable(p, s) && h < |s.handlers| && Entered(s.handlers[h].pc) && s.handlers[h].muxClosed
    requires ValidRun(p, s, steps)
    ensures var x, t := s.handlers[h], Exec(p, s, steps);
            && NextPos(x) <= |x.requested| && h < |t.handlers|
            && OwnSteps(steps, h) <= 4 * (|x.requested| - NextPos(x)) + |x.listeners| + PriorLoad(s, h) + 11
            && (OwnSteps(steps, h) == Rank(s, h) ==> t.handlers[h].pc.Done?)
            && (|| t.handlers[h].pc.Done?
                || Enabled(p, t, Handle(h, NextAct(p, t, h)))
                || (WaitsForLock(t.handlers[h].pc) && t.mu.Some? && t.mu.value < |t.handlers|
                    && Enabled(p, t, Handle(t.mu.value, CloseOwn))))
  {
    var t := Exec(p, s, steps);
    PriorsReachable(p, s);
    assert ListsOk(s, h);
    RankRun(p, s, steps, h);
    RankBound(s, h);
    ReachRun(p, s, steps);
    MuxStaysClosed(p, s, steps, h);
    InvReachable(p, t);
    assert ListsOk(t, h);
    RankBound(t, h);
    if !t.handlers[h].pc.Done? {
      HandlersCanProceed(p, t, h);
    }
  }
}
