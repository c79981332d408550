/** A session that was displaced has been told to stop, and one that is over has stopped. */
module Succession {
  import opened Bytes
  import opened SessionMachine
  import opened SessionInvariants
  import opened Handover
  import opened Progress

  /** Its context is cancelled and its mux is closed. */
  predicate Told(x: Handler)
  {
    x.cancelled && x.muxClosed
  }

  /** Of two sessions that registered one after the other: the later displaces the earlier, or is done
    * with that, or found that the earlier had removed itself. */
  ghost predicate PairTold(s: State, g: nat, h: nat)
    requires g < |s.handlers| && h < |s.handlers|
  {
    var pc := s.handlers[h].pc;
    && (IsDisplacing(pc) ==> pc.prior == g && (!pc.DisplaceCancel? ==> s.handlers[g].cancelled))
    && (Entered(pc) && !IsDisplacing(pc) ==> RemovalDone(s.handlers[g].pc) || Told(s.handlers[g]))
  }

  ghost predicate LogTold(s: State, c: Str)
    requires LogOk(s, c)
  {
    forall i, j :: 0 <= i && j == i + 1 && j < |LogOf(s, c)| ==> PairTold(s, LogOf(s, c)[i], LogOf(s, c)[j])
  }

  /** What a session has done to itself on its way out. */
  ghost predicate StoppedItself(s: State, h: nat)
    requires h < |s.handlers|
  {
    var x := s.handlers[h];
    h in LogOf(s, x.client) ==>
      && (x.pc.CancellingSelf? ==> x.muxClosed)
      && (x.pc.Exiting? || x.pc.Done? ==> Told(x))
  }

  ghost predicate TellInv(s: State)
  {
    && (forall c :: LogOk(s, c) && LogTold(s, c))
    && (forall h :: 0 <= h < |s.handlers| ==> StoppedItself(s, h))
  }

  /** Flags are never taken back, and what is removed stays so. */
  ghost predicate Grown(x: Handler, y: Handler)
  {
    && (x.cancelled ==> y.cancelled) && (x.muxClosed ==> y.muxClosed)
    && (RemovalDone(x.pc) ==> RemovalDone(y.pc)) && (Entered(x.pc) ==> Entered(y.pc) && y.client == x.client)
  }

  ghost predicate AllGrown(s: State, t: State)
  {
    |t.handlers| >= |s.handlers| && forall h :: 0 <= h < |s.handlers| ==> Grown(s.handlers[h], t.handlers[h])
  }

  lemma MoveGrows(p: Params, x: Handler, move: Move)
    requires MoveEnabled(p, x, move)
    ensures Grown(x, Moved(p, x, move))
  {}

  lemma PutGrows(s: State, t: State, h: nat)
    requires h < |s.handlers| && |t.handlers| == |s.handlers| && t.handlers == s.handlers[h := t.handlers[h]]
    requires Grown(s.handlers[h], t.handlers[h])
    ensures AllGrown(s, t)
  {}

  lemma PcGrows(act: Act, x: Handler, y: Handler)
    requires Leads(act, x.pc, y.pc) && MovesOnlyPc(act) && y == x.(pc := y.pc)
    ensures Grown(x, y)
  {}

  lemma FlagGrows(s: State, g: nat, x: Handler)
    requires g < |s.handlers| && x == s.handlers[g].(cancelled := x.cancelled, muxClosed := x.muxClosed)
    requires (s.handlers[g].cancelled ==> x.cancelled) && (s.handlers[g].muxClosed ==> x.muxClosed)
    ensures AllGrown(s, Put(s, g, x))
  {}

  lemma GrownTrans(s: State, t: State, u: State)
    requires AllGrown(s, t) && AllGrown(t, u)
    ensures AllGrown(s, u)
  {
    forall h | 0 <= h < |s.handlers| ensures Grown(s.handlers[h], u.handlers[h]) {
      assert Grown(s.handlers[h], t.handlers[h]) && Grown(t.handlers[h], u.handlers[h]);
    }
  }

  /** A displacing session moves on; flags may have been set before. */
  lemma GotoGrows(s: State, h: nat, pc: Pc)
    requires h < |s.handlers| && IsDisplacing(s.handlers[h].pc) && Entered(pc) && !RemovalDone(s.handlers[h].pc)
    ensures AllGrown(s, Goto(s, h, pc))
  {}

  lemma DisplaceGrows(s: State, h: nat)
    requires h < |s.handlers| && IsDisplacing(s.handlers[h].pc)
    ensures AllGrown(s, DisplaceStep(s, h))
  {
    match s.handlers[h].pc
    case DisplaceCancel(prior) =>
      var u := SetCancelled(s, prior);
      if prior < |s.handlers| {
        FlagGrows(s, prior, s.handlers[prior].(cancelled := true));
      }
      GotoGrows(u, h, DisplaceSnapshot(prior));
      GrownTrans(s, u, Goto(u, h, DisplaceSnapshot(prior)));
    case DisplaceSnapshot(prior) =>
      GotoGrows(s, h, DisplacedPc(s, h));
    case DisplaceClose(prior, lns, k) =>
      var u := if k < |lns| then CloseListener(s, lns[k]) else s;
      GotoGrows(u, h, DisplacedPc(s, h));
    case DisplaceMux(prior) =>
      var u := SetMuxClosed(s, prior);
      if prior < |s.handlers| {
        FlagGrows(s, prior, s.handlers[prior].(muxClosed := true));
      }
      GotoGrows(u, h, Listening(0));
      GrownTrans(s, u, Goto(u, h, Listening(0)));
  }

  lemma ActGrows(p: Params, s: State, h: nat, act: Act)
    requires h < |s.handlers| && ActEnabled(p, s, h, act)
    ensures AllGrown(s, ActApply(p, s, h, act))
  {
    var t := ActApply(p, s, h, act);
    match act
    case Private(move) =>
      MoveGrows(p, s.handlers[h], move);
      PutGrows(s, t, h);
    case Displace => DisplaceGrows(s, h);
    case ReleaseToken => PutGrows(s, t, h);
    case Exit => PutGrows(s, t, h);
    case _ =>
      PcEffect(p, s, h, act);
      PcGrows(act, s.handlers[h], t.handlers[h]);
      PutGrows(s, t, h);
  }

  lemma StepGrows(p: Params, s: State, step: Step)
    requires Enabled(p, s, step)
    ensures AllGrown(s, Apply(p, s, step))
  {
    match step
    case Handle(h, act) => ActGrows(p, s, h, act);
    case Serve(x, deed) => DeedKeepsHandlers(p, s, x, deed);
    case _ =>
  }

  // ------------------------------------------------------------ pairs

  /** Where the later session stays where it is as a displacer, the pair stays told. */
  lemma PairStaysTold(s: State, t: State, g: nat, h: nat)
    requires AllGrown(s, t) && g < |s.handlers| && h < |s.handlers| && Entered(s.handlers[h].pc) && PairTold(s, g, h)
    requires IsDisplacing(t.handlers[h].pc) ==> t.handlers[h].pc == s.handlers[h].pc
    requires IsDisplacing(s.handlers[h].pc) ==> IsDisplacing(t.handlers[h].pc)
    ensures PairTold(t, g, h)
  {
    assert Grown(s.handlers[g], t.handlers[g]) && Grown(s.handlers[h], t.handlers[h]);
  }

  lemma CalmTold(s: State, t: State)
    requires (forall c :: LogOk(s, c) && LogTold(s, c)) && (forall c :: LogOk(t, c)) && AllGrown(s, t) && t.log == s.log
    requires forall h :: 0 <= h < |s.handlers| && Entered(s.handlers[h].pc) ==>
               (IsDisplacing(t.handlers[h].pc) ==> t.handlers[h].pc == s.handlers[h].pc)
               && (IsDisplacing(s.handlers[h].pc) ==> IsDisplacing(t.handlers[h].pc))
    ensures forall c :: LogTold(t, c)
  {
    forall c ensures LogTold(t, c) {
      assert LogOk(s, c) && LogTold(s, c);
      var log := LogOf(s, c);
      assert LogOf(t, c) == log;
      forall i, j | 0 <= i && j == i + 1 && j < |log| ensures PairTold(t, log[i], log[j]) {
        PairStaysTold(s, t, log[i], log[j]);
      }
    }
  }

  lemma DisplaceTells(s: State, h: nat, g: nat)
    requires h < |s.handlers| && g < |s.handlers| && g != h && IsDisplacing(s.handlers[h].pc) && PairTold(s, g, h)
    ensures |DisplaceStep(s, h).handlers| == |s.handlers| && PairTold(DisplaceStep(s, h), g, h)
  {
    DisplaceGoesTo(s, h);
    DisplaceGrows(s, h);
    var t, pc := DisplaceStep(s, h), s.handlers[h].pc;
    assert Grown(s.handlers[g], t.handlers[g]);
    if pc.DisplaceCancel? {
      assert SetCancelled(s, g).handlers[g].cancelled;
    } else if pc.DisplaceMux? {
      assert SetMuxClosed(s, g).handlers[g].muxClosed;
    }
  }

  lemma DisplaceTold(s: State, h: nat)
    requires (forall c :: LogOk(s, c) && LogTold(s, c)) && h < |s.handlers| && IsDisplacing(s.handlers[h].pc)
    requires forall c :: LogOk(DisplaceStep(s, h), c)
    ensures forall c :: LogTold(DisplaceStep(s, h), c)
  {
    var t := DisplaceStep(s, h);
    DisplaceEffect(s, h);
    DisplaceGrows(s, h);
    forall c ensures LogTold(t, c) {
      assert LogOk(s, c) && LogTold(s, c);
      var log := LogOf(s, c);
      assert LogOf(t, c) == log;
      forall i, j | 0 <= i && j == i + 1 && j < |log| ensures PairTold(t, log[i], log[j]) {
        assert PairTold(s, log[i], log[j]) && log[i] != log[j];
        if log[j] == h {
          DisplaceTells(s, h, log[i]);
        } else {
          PairStaysTold(s, t, log[i], log[j]);
        }
      }
    }
  }

  lemma RegisterTold(p: Params, s: State, h: nat)
    requires RegistryInv(s) && (forall c :: LogTold(s, c)) && h < |s.handlers| && Enabled(p, s, Handle(h, Register))
    requires forall c :: LogOk(ReplaceSession(s, h), c)
    ensures forall c :: LogTold(ReplaceSession(s, h), c)
  {
    var t, d := ReplaceSession(s, h), s.handlers[h].client;
    ActGrows(p, s, h, Register);
    forall c ensures LogTold(t, c) {
      assert LogOk(s, c) && LogTold(s, c) && RegistryOk(s, c);
      var log := LogOf(s, c);
      forall i, j | 0 <= i && j == i + 1 && j < |LogOf(t, c)| ensures PairTold(t, LogOf(t, c)[i], LogOf(t, c)[j]) {
        if j < |log| {
          PairStaysTold(s, t, log[i], log[j]);
        } else {
          assert Newest(s, d) == Some(log[i]);
          assert MutexOk(s);
        }
      }
    }
  }

  lemma StoppedStays(p: Params, s: State, step: Step, h: nat)
    requires Inv(p, s) && Enabled(p, s, step) && h < |s.handlers| && StoppedItself(s, h)
    requires AllGrown(s, Apply(p, s, step))
    ensures StoppedItself(Apply(p, s, step), h)
  {
    var x, t := s.handlers[h], Apply(p, s, step);
    assert Grown(x, t.handlers[h]);
    if IsOwn(step, h) {
      OwnStopStays(p, s, h, step.act);
    } else {
      OthersUntouch(p, s, step, h);
      LogsGrow(p, s, step, h);
    }
  }

  /** A log gains a session only when that session registers. */
  lemma LogsGrow(p: Params, s: State, step: Step, h: nat)
    requires Enabled(p, s, step) && h < |s.handlers| && !IsOwn(step, h)
    ensures forall c :: h in LogOf(Apply(p, s, step), c) ==> h in LogOf(s, c)
  {
    match step
    case Handle(g, act) => ActLogs(p, s, g, act, h);
    case Serve(x, deed) => DeedKeepsHandlers(p, s, x, deed);
    case _ =>
  }

  lemma ActLogs(p: Params, s: State, g: nat, act: Act, h: nat)
    requires g < |s.handlers| && ActEnabled(p, s, g, act) && (g != h || act == Private(MuxDies))
    ensures forall c :: h in LogOf(ActApply(p, s, g, act), c) ==> h in LogOf(s, c)
  {
    if act.Displace? {
      DisplaceEffect(s, g);
    } else if !act.Register? {
      assert ActApply(p, s, g, act).log == s.log;
    }
  }

  lemma OwnMoveStops(p: Params, s: State, h: nat, move: Move)
    requires (forall c :: LogOk(s, c)) && h < |s.handlers| && MoveEnabled(p, s.handlers[h], move) && StoppedItself(s, h)
    ensures StoppedItself(Put(s, h, Moved(p, s.handlers[h], move)), h)
  {
    var y := Moved(p, s.handlers[h], move);
    assert LogOk(s, y.client);
  }

  lemma OwnDisplaceStops(s: State, h: nat)
    requires h < |s.handlers| && IsDisplacing(s.handlers[h].pc)
    ensures |DisplaceStep(s, h).handlers| == |s.handlers| && StoppedItself(DisplaceStep(s, h), h)
  {
    DisplaceEffect(s, h);
  }

  lemma OwnPcStops(act: Act, s: State, t: State, h: nat)
    requires h < |s.handlers| && PcMoved(s, t, h) && MovesOnlyPc(act) && Leads(act, s.handlers[h].pc, t.handlers[h].pc)
    ensures StoppedItself(t, h)
  {}

  lemma OwnStopStays(p: Params, s: State, h: nat, act: Act)
    requires RegistryInv(s) && h < |s.handlers| && ActEnabled(p, s, h, act) && StoppedItself(s, h)
    ensures |ActApply(p, s, h, act).handlers| == |s.handlers| && StoppedItself(ActApply(p, s, h, act), h)
  {
    assert LogOk(s, s.handlers[h].client);
    match act
    case Private(move) => OwnMoveStops(p, s, h, move);
    case Displace => OwnDisplaceStops(s, h);
    case ReleaseToken =>
    case Exit =>
    case _ =>
      PcEffect(p, s, h, act);
      OwnPcStops(act, s, ActApply(p, s, h, act), h);
  }

  lemma TellStep(p: Params, s: State, step: Step)
    requires Inv(p, s) && TellInv(s) && Enabled(p, s, step)
    ensures TellInv(Apply(p, s, step))
  {
    var t := Apply(p, s, step);
    InvStep(p, s, step);
    StepGrows(p, s, step);
    LogsTold(p, s, step);
    forall h | 0 <= h < |t.handlers| ensures StoppedItself(t, h) {
      if h < |s.handlers| {
        assert StoppedItself(s, h);
        StoppedStays(p, s, step, h);
      } else {
        NewHandlerWaits(p, s, step, h);
      }
    }
  }

  lemma NewHandlerWaits(p: Params, s: State, step: Step, h: nat)
    requires Enabled(p, s, step) && |s.handlers| <= h < |Apply(p, s, step).handlers|
    ensures Apply(p, s, step).handlers[h].pc.Handshaking?
  {
    match step
    case Handle(g, act) => ActAddsNone(p, s, g, act);
    case Serve(x, deed) => DeedKeepsHandlers(p, s, x, deed);
    case _ =>
  }

  lemma LogsTold(p: Params, s: State, step: Step)
    requires Inv(p, s) && TellInv(s) && Enabled(p, s, step) && AllGrown(s, Apply(p, s, step)) && RegistryInv(Apply(p, s, step))
    ensures forall c :: LogTold(Apply(p, s, step), c)
  {
    var t := Apply(p, s, step);
    if step.Handle? && step.act.Register? {
      RegisterTold(p, s, step.h);
    } else if step.Handle? && step.act.Displace? {
      DisplaceTold(s, step.h);
    } else {
      KeepsDisplacers(p, s, step);
      CalmTold(s, t);
    }
  }

  /** Apart from registrations and displacements themselves, displacers stay where they are. */
  lemma KeepsDisplacers(p: Params, s: State, step: Step)
    requires Enabled(p, s, step) && !(step.Handle? && (step.act.Register? || step.act.Displace?))
    ensures var t := Apply(p, s, step);
            && t.log == s.log && |t.handlers| >= |s.handlers|
            && forall h :: 0 <= h < |s.handlers| ==>
                 (IsDisplacing(t.handlers[h].pc) ==> t.handlers[h].pc == s.handlers[h].pc)
                 && (IsDisplacing(s.handlers[h].pc) ==> IsDisplacing(t.handlers[h].pc))
  {
    var t := Apply(p, s, step);
    if step.Handle? && step.act.BindOk? {
      assert t.handlers == s.handlers[step.h := t.handlers[step.h]];
    } else {
      if step.Handle? {
        CalmAct(p, s, step.h, step.act);
      } else if step.Serve? {
        CalmDeed(p, s, step.x, step.deed);
      } else {
        CalmOther(p, s, step);
      }
      CalmDisplacers(s, t);
    }
  }

  lemma CalmDisplacers(s: State, t: State)
    requires CalmStep(s, t)
    ensures forall h :: 0 <= h < |s.handlers| ==>
              (IsDisplacing(t.handlers[h].pc) ==> t.handlers[h].pc == s.handlers[h].pc)
              && (IsDisplacing(s.handlers[h].pc) ==> IsDisplacing(t.handlers[h].pc))
  {
    forall h | 0 <= h < |s.handlers|
      ensures (IsDisplacing(t.handlers[h].pc) ==> t.handlers[h].pc == s.handlers[h].pc)
              && (IsDisplacing(s.handlers[h].pc) ==> IsDisplacing(t.handlers[h].pc))
    {
      assert Calm(s.handlers[h], t.handlers[h]);
    }
  }

  lemma {:induction false} TellRun(p: Params, s: State, steps: seq<Step>)
    requires Inv(p, s) && TellInv(s) && ValidRun(p, s, steps)
    ensures TellInv(Exec(p, s, steps))
    decreases |steps|
  {
    if steps != [] {
      TellStep(p, s, steps[0]);
      InvStep(p, s, steps[0]);
      TellRun(p, Apply(p, s, steps[0]), steps[1..]);
    }
  }

  lemma TellReachable(p: Params, s: State)
    requires Reachable(p, s)
    ensures Inv(p, s) && TellInv(s)
  {
    InvReachable(p, s);
    var steps :| ValidRun(p, INIT, steps) && Exec(p, INIT, steps) == s;
    TellRun(p, INIT, steps);
  }

  // ------------------------------------------------------------ results

  /** Once a session has begun on its own listeners, its client's previous session has been told to
    * stop, context and mux, or had removed itself before. */
  lemma PredecessorIsTold(p: Params, s: State, c: Str, i: nat)
    requires Reachable(p, s) && i + 1 < |LogOf(s, c)|
    ensures LogOf(s, c)[i] < |s.handlers| && LogOf(s, c)[i + 1] < |s.handlers|
    ensures var g, h := s.handlers[LogOf(s, c)[i]], s.handlers[LogOf(s, c)[i + 1]];
            !IsDisplacing(h.pc) ==> RemovalDone(g.pc) || (g.cancelled && g.muxClosed)
  {
    TellReachable(p, s);
    assert LogOk(s, c) && LogTold(s, c);
    var j := i + 1;
    assert PairTold(s, LogOf(s, c)[i], LogOf(s, c)[j]);
  }

  /** A session that is over has closed its mux and cancelled its context, so that nothing it started
    * is left waiting on either. */
  lemma OverMeansStopped(p: Params, s: State, h: nat)
    requires Reachable(p, s) && h < |s.handlers| && h in LogOf(s, s.handlers[h].client) && s.handlers[h].pc.Done?
    ensures s.handlers[h].cancelled && s.handlers[h].muxClosed
  {
    TellReachable(p, s);
    assert StoppedItself(s, h);
  }
}
