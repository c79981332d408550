/** When a bind can find its address taken: the exact condition on hand-overs, and the exact
  * condition on configurations. */
module Collisions {
  import opened Bytes
  import opened SessionMachine
  import opened SessionInvariants
  import opened Handover

  // ------------------------------------------------------------ letting go of a name

  /** The session's listen loop has still to come to the name. */
  ghost predicate Ahead(x: Handler, name: Str)
  {
    exists i :: NextPos(x) <= i < |x.requested| && x.requested[i] == name
  }

  /** l is an open listener of session g for the name. */
  ghost predicate Holds(s: State, l: nat, g: nat, name: Str)
  {
    l < |s.listeners| && s.listeners[l].open && s.listeners[l].owner == g && s.listeners[l].service == name
  }

  /** A session at pc has seen l in its predecessor's list and will close it. */
  ghost predicate ToClose(pc: Pc, l: nat)
  {
    pc.DisplaceClose? && exists j :: pc.k <= j < |pc.lns| && pc.lns[j] == l
  }

  /** Session g will not hold the name again, nor does it now but for listeners that a successor at
    * pc will close. A name without an address is never held. */
  ghost predicate LetsGo(p: Params, s: State, g: nat, name: Str, pc: Pc)
    requires g < |s.handlers|
  {
    Lookup(p, s.handlers[g].client, name).Some? ==>
      && !Ahead(s.handlers[g], name)
      && forall l: nat :: Holds(s, l, g, name) ==> ToClose(pc, l)
  }

  /** The session has looked at its predecessor's listeners, or had no predecessor to look at. */
  predicate Started(pc: Pc)
  {
    Entered(pc) && !pc.DisplaceCancel? && !pc.DisplaceSnapshot?
  }

  /** Session g lets go of all that the later session h asks for. */
  ghost predicate PairOk(p: Params, s: State, g: nat, h: nat)
    requires g < |s.handlers| && h < |s.handlers|
  {
    Started(s.handlers[h].pc) ==>
      forall name :: name in s.handlers[h].requested ==> LetsGo(p, s, g, name, s.handlers[h].pc)
  }

  ghost predicate LogPairsOk(p: Params, s: State, client: Str)
    requires LogOk(s, client)
  {
    forall i, j :: 0 <= i < j < |LogOf(s, client)| ==> PairOk(p, s, LogOf(s, client)[i], LogOf(s, client)[j])
  }

  ghost predicate PairInv(p: Params, s: State)
  {
    forall c :: LogOk(s, c) && LogPairsOk(p, s, c)
  }

  /** The sessions of h's client that registered before h; all of them if h has not registered. */
  ghost predicate Older(s: State, h: nat, g: nat)
    requires h < |s.handlers|
  {
    var log := LogOf(s, s.handlers[h].client);
    exists i :: 0 <= i < |log| && log[i] == g && forall j :: 0 <= j <= i ==> log[j] != h
  }

  /** Every older session lets go of what h asks for, given where h goes next. */
  ghost predicate OlderLetGo(p: Params, s: State, h: nat, pc: Pc)
    requires h < |s.handlers|
  {
    forall g: nat, name :: g < |s.handlers| && Older(s, h, g) && name in s.handlers[h].requested ==>
      LetsGo(p, s, g, name, pc)
  }

  /** The step with which h starts on its own listeners: it looks at its predecessor's list, or
    * registers and finds no predecessor. */
  ghost predicate Starts(p: Params, s: State, step: Step)
  {
    && step.Handle? && (step.act.Register? || step.act.Displace?) && Enabled(p, s, step)
    && !Started(s.handlers[step.h].pc) && |Apply(p, s, step).handlers| == |s.handlers|
    && Started(Apply(p, s, step).handlers[step.h].pc)
  }

  /** When a session starts, the older sessions of its client have let go of what it asks for. */
  ghost predicate ClearStep(p: Params, s: State, step: Step)
  {
    Starts(p, s, step) ==> OlderLetGo(p, s, step.h, Apply(p, s, step).handlers[step.h].pc)
  }

  ghost predicate ClearRun(p: Params, s: State, steps: seq<Step>)
    decreases |steps|
  {
    steps == [] ||
    (Enabled(p, s, steps[0]) && ClearStep(p, s, steps[0]) && ClearRun(p, Apply(p, s, steps[0]), steps[1..]))
  }

  ghost predicate ClearlyReached(p: Params, s: State)
  {
    exists steps :: ClearRun(p, INIT, steps) && ValidRun(p, INIT, steps) && Exec(p, INIT, steps) == s
  }

  // ------------------------------------------------------------ clear runs keep the pairs

  /** A session goes on with its request, and what it has still to close it closes. */
  ghost predicate GoesOn(x: Handler, y: Handler)
  {
    Entered(x.pc) ==>
      && Entered(y.pc) && y.client == x.client && y.requested == x.requested
      && (NextPos(x) <= NextPos(y) || NextPos(y) >= |y.requested|)
      && (Started(x.pc) ==> Started(y.pc))
  }

  /** A listener that is new came from a name its session had ahead of it. */
  ghost predicate FromAhead(s: State, y: Listener)
  {
    y.owner < |s.handlers| && Ahead(s.handlers[y.owner], y.service)
  }

  ghost predicate ClosingOn(s: State, t: State, h: nat, l: nat)
    requires h < |s.handlers| <= |t.handlers|
  {
    ToClose(s.handlers[h].pc, l) && l < |t.listeners| && t.listeners[l].open ==> ToClose(t.handlers[h].pc, l)
  }

  ghost predicate Evolves(s: State, t: State)
  {
    && |t.handlers| >= |s.handlers| && |t.listeners| >= |s.listeners|
    && (forall h :: 0 <= h < |s.handlers| ==> GoesOn(s.handlers[h], t.handlers[h]))
    && (forall l :: 0 <= l < |s.listeners| ==> SameListener(s.listeners[l], t.listeners[l]))
    && (forall l :: |s.listeners| <= l < |t.listeners| ==> FromAhead(s, t.listeners[l]))
    && (forall h: nat, l: nat :: h < |s.handlers| ==> ClosingOn(s, t, h, l))
  }

  lemma LetsGoStays(p: Params, s: State, t: State, g: nat, name: Str, pc: Pc, pc': Pc)
    requires Evolves(s, t) && g < |s.handlers| && Entered(s.handlers[g].pc) && LetsGo(p, s, g, name, pc)
    requires forall l: nat :: ToClose(pc, l) && l < |t.listeners| && t.listeners[l].open ==> ToClose(pc', l)
    ensures LetsGo(p, t, g, name, pc')
  {
    var x, y := s.handlers[g], t.handlers[g];
    assert GoesOn(x, y);
    if Lookup(p, y.client, name).Some? {
      assert Ahead(y, name) ==> Ahead(x, name);
      forall l: nat | Holds(t, l, g, name) ensures ToClose(pc', l) {
        if l < |s.listeners| {
          assert SameListener(s.listeners[l], t.listeners[l]);
          assert Holds(s, l, g, name);
        } else {
          NewIsAhead(s, t, l, g, name);
        }
      }
    }
  }

  lemma NewIsAhead(s: State, t: State, l: nat, g: nat, name: Str)
    requires Evolves(s, t) && g < |s.handlers| && |s.listeners| <= l && Holds(t, l, g, name)
    ensures Ahead(s.handlers[g], name)
  {
    assert FromAhead(s, t.listeners[l]);
  }

  lemma PairStays(p: Params, s: State, t: State, g: nat, h: nat)
    requires Evolves(s, t) && g < |s.handlers| && h < |s.handlers|
    requires Entered(s.handlers[g].pc) && Entered(s.handlers[h].pc) && Started(s.handlers[h].pc) && PairOk(p, s, g, h)
    ensures PairOk(p, t, g, h)
  {
    assert GoesOn(s.handlers[h], t.handlers[h]);
    forall name | name in t.handlers[h].requested ensures LetsGo(p, t, g, name, t.handlers[h].pc) {
      forall l: nat | ToClose(s.handlers[h].pc, l) && l < |t.listeners| && t.listeners[l].open
        ensures ToClose(t.handlers[h].pc, l)
      {
        assert ClosingOn(s, t, h, l);
      }
      LetsGoStays(p, s, t, g, name, s.handlers[h].pc, t.handlers[h].pc);
    }
  }

  /** A step that starts no session keeps the pairs of a client whose log it leaves alone. */
  lemma PairsStay(p: Params, s: State, t: State, c: Str)
    requires LogOk(s, c) && LogPairsOk(p, s, c) && Evolves(s, t) && LogOf(t, c) == LogOf(s, c) && LogOk(t, c)
    requires forall h: nat :: h < |s.handlers| && !Started(s.handlers[h].pc) && h in LogOf(s, c) ==> !Started(t.handlers[h].pc)
    ensures LogPairsOk(p, t, c)
  {
    var log := LogOf(s, c);
    forall i, j | 0 <= i < j < |log| ensures PairOk(p, t, log[i], log[j]) {
      assert PairOk(p, s, log[i], log[j]);
      if Started(s.handlers[log[j]].pc) {
        PairStays(p, s, t, log[i], log[j]);
      } else {
        assert log[j] in log;
      }
    }
  }

  lemma CalmEvolves(s: State, t: State)
    requires CalmStep(s, t)
    ensures Evolves(s, t)
    ensures forall h: nat :: h < |s.handlers| && !Started(s.handlers[h].pc) && Entered(s.handlers[h].pc) ==> !Started(t.handlers[h].pc)
  {
    forall h | 0 <= h < |s.handlers| ensures GoesOn(s.handlers[h], t.handlers[h]) {
      assert Calm(s.handlers[h], t.handlers[h]);
    }
    forall h: nat, l: nat | h < |s.handlers| ensures ClosingOn(s, t, h, l) {
      assert Calm(s.handlers[h], t.handlers[h]);
    }
  }

  lemma CalmPairs(p: Params, s: State, t: State)
    requires PairInv(p, s) && CalmStep(s, t) && (forall c :: LogOk(t, c))
    ensures PairInv(p, t)
  {
    CalmEvolves(s, t);
    forall c ensures LogPairsOk(p, t, c) {
      assert LogOk(s, c) && LogPairsOk(p, s, c) && LogOf(t, c) == LogOf(s, c);
      PairsStay(p, s, t, c);
    }
  }

  lemma BindEvolves(p: Params, s: State, h: nat)
    requires h < |s.handlers| && Wanted(p, s.handlers[h]).Some?
    ensures Evolves(s, Bind(p, s, h))
  {
    var t := Bind(p, s, h);
    assert GoesOn(s.handlers[h], t.handlers[h]);
    assert FromAhead(s, t.listeners[|s.listeners|]);
  }

  lemma BindPairs(p: Params, s: State, h: nat)
    requires PairInv(p, s) && h < |s.handlers| && Wanted(p, s.handlers[h]).Some?
    requires forall c :: LogOk(Bind(p, s, h), c)
    ensures PairInv(p, Bind(p, s, h))
  {
    var t := Bind(p, s, h);
    BindEvolves(p, s, h);
    forall c ensures LogPairsOk(p, t, c) {
      assert LogOk(s, c) && LogPairsOk(p, s, c) && LogOf(t, c) == LogOf(s, c);
      PairsStay(p, s, t, c);
    }
  }

  lemma RegisterEvolves(s: State, h: nat)
    requires h < |s.handlers| && s.handlers[h].pc.Registering?
    ensures Evolves(s, ReplaceSession(s, h))
  {}

  /** What a step of displacement does to the displacing session itself. */
  lemma DisplaceGoesOn(s: State, h: nat)
    requires h < |s.handlers| && IsDisplacing(s.handlers[h].pc) && Displaced(s, DisplaceStep(s, h), h)
    ensures GoesOn(s.handlers[h], DisplaceStep(s, h).handlers[h])
  {
    assert SameButFlags(s.handlers[h], DisplaceStep(s, h).handlers[h]);
  }

  lemma DisplaceClosingOn(s: State, h: nat, l: nat)
    requires h < |s.handlers| && IsDisplacing(s.handlers[h].pc) && Displaced(s, DisplaceStep(s, h), h)
    ensures ClosingOn(s, DisplaceStep(s, h), h, l)
  {
    var pc := s.handlers[h].pc;
    if ToClose(pc, l) {
      var j :| pc.k <= j < |pc.lns| && pc.lns[j] == l;
      if j == pc.k && pc.k < |pc.lns| {
        assert DisplaceStep(s, h).listeners == CloseListener(s, l).listeners;
      }
    }
  }

  lemma DisplaceEvolves(s: State, h: nat)
    requires h < |s.handlers| && IsDisplacing(s.handlers[h].pc)
    ensures Evolves(s, DisplaceStep(s, h))
    ensures forall g: nat :: g < |s.handlers| && g != h ==> DisplaceStep(s, h).handlers[g].pc == s.handlers[g].pc
  {
    var t := DisplaceStep(s, h);
    DisplaceEffect(s, h);
    DisplaceCloses(s, h);
    DisplaceGoesOn(s, h);
    forall g | 0 <= g < |s.handlers| ensures GoesOn(s.handlers[g], t.handlers[g]) {
      assert SameButFlags(s.handlers[g], t.handlers[g]);
    }
    forall g: nat, l: nat | g < |s.handlers| ensures ClosingOn(s, t, g, l) {
      if g == h {
        DisplaceClosingOn(s, h, l);
      } else {
        assert SameButFlags(s.handlers[g], t.handlers[g]);
      }
    }
  }

  /** The pairs with the session that starts. */
  lemma StartPairs(p: Params, s: State, t: State, h: nat, g: nat)
    requires h < |s.handlers| && g < |s.handlers| && Entered(s.handlers[g].pc) && Evolves(s, t)
    requires OlderLetGo(p, s, h, t.handlers[h].pc) && Older(s, h, g)
    requires t.handlers[h].requested == s.handlers[h].requested && t.listeners == s.listeners
    ensures PairOk(p, t, g, h)
  {
    forall name | name in t.handlers[h].requested ensures LetsGo(p, t, g, name, t.handlers[h].pc) {
      assert LetsGo(p, s, g, name, t.handlers[h].pc);
      LetsGoStays(p, s, t, g, name, t.handlers[h].pc, t.handlers[h].pc);
    }
  }

  /** The two ways to start leave the listeners as they are. */
  lemma StartKeepsListeners(p: Params, s: State, h: nat, act: Act)
    requires Starts(p, s, Handle(h, act))
    ensures var t := ActApply(p, s, h, act);
            t.listeners == s.listeners && t.handlers[h].requested == s.handlers[h].requested
            && t.handlers[h].client == s.handlers[h].client
  {}

  lemma DisplacePairs(p: Params, s: State, h: nat)
    requires PairInv(p, s) && h < |s.handlers| && IsDisplacing(s.handlers[h].pc) && ClearStep(p, s, Handle(h, Displace))
    requires forall c :: LogOk(DisplaceStep(s, h), c)
    ensures PairInv(p, DisplaceStep(s, h))
  {
    var t := DisplaceStep(s, h);
    DisplaceEffect(s, h);
    DisplaceEvolves(s, h);
    forall c ensures LogPairsOk(p, t, c) {
      var log := LogOf(s, c);
      assert LogOk(s, c) && LogPairsOk(p, s, c) && LogOf(t, c) == log && LogOk(t, c);
      forall i, j | 0 <= i < j < |log| ensures PairOk(p, t, log[i], log[j]) {
        assert PairOk(p, s, log[i], log[j]);
        if Started(s.handlers[log[j]].pc) {
          PairStays(p, s, t, log[i], log[j]);
        } else if log[j] == h && Started(t.handlers[h].pc) {
          StartKeepsListeners(p, s, h, Displace);
          assert Older(s, h, log[i]);
          StartPairs(p, s, t, h, log[i]);
        }
      }
    }
  }

  lemma RegisterPairs(p: Params, s: State, h: nat)
    requires PairInv(p, s) && h < |s.handlers| && Enabled(p, s, Handle(h, Register)) && ClearStep(p, s, Handle(h, Register))
    requires forall c :: LogOk(ReplaceSession(s, h), c)
    ensures PairInv(p, ReplaceSession(s, h))
  {
    var t := ReplaceSession(s, h);
    RegisterEvolves(s, h);
    forall c ensures LogPairsOk(p, t, c) {
      var log := LogOf(s, c);
      assert LogOk(s, c) && LogPairsOk(p, s, c) && LogOk(t, c);
      forall i, j | 0 <= i < j < |LogOf(t, c)| ensures PairOk(p, t, LogOf(t, c)[i], LogOf(t, c)[j]) {
        if j < |log| {
          RegisterOldPair(p, s, h, c, i, j);
        } else {
          RegisterNewPair(p, s, h, i);
        }
      }
    }
  }

  lemma RegisterOldPair(p: Params, s: State, h: nat, c: Str, i: nat, j: nat)
    requires h < |s.handlers| && s.handlers[h].pc.Registering? && LogOk(s, c) && LogPairsOk(p, s, c)
    requires i < j < |LogOf(s, c)| && Evolves(s, ReplaceSession(s, h))
    ensures PairOk(p, ReplaceSession(s, h), LogOf(s, c)[i], LogOf(s, c)[j])
  {
    var log := LogOf(s, c);
    assert PairOk(p, s, log[i], log[j]);
    assert log[j] != h;
    if Started(s.handlers[log[j]].pc) {
      PairStays(p, s, ReplaceSession(s, h), log[i], log[j]);
    }
  }

  lemma RegisterNewPair(p: Params, s: State, h: nat, i: nat)
    requires h < |s.handlers| && Enabled(p, s, Handle(h, Register)) && ClearStep(p, s, Handle(h, Register))
    requires LogOk(s, s.handlers[h].client) && i < |LogOf(s, s.handlers[h].client)| && Evolves(s, ReplaceSession(s, h))
    ensures PairOk(p, ReplaceSession(s, h), LogOf(s, s.handlers[h].client)[i], h)
  {
    var t := ReplaceSession(s, h);
    var log := LogOf(s, s.handlers[h].client);
    if Started(t.handlers[h].pc) {
      assert forall j :: 0 <= j < |log| ==> log[j] != h;
      assert Older(s, h, log[i]);
      StartPairs(p, s, t, h, log[i]);
    }
  }

  lemma PairStep(p: Params, s: State, step: Step)
    requires Inv(p, s) && PairInv(p, s) && Enabled(p, s, step) && ClearStep(p, s, step)
    ensures PairInv(p, Apply(p, s, step))
  {
    var t := Apply(p, s, step);
    LogsAfter(p, s, step);
    match step
    case Handle(h, act) =>
      if act.Register? {
        RegisterPairs(p, s, h);
      } else if act.Displace? {
        DisplacePairs(p, s, h);
      } else if act.BindOk? {
        BindPairs(p, s, h);
      } else {
        CalmAct(p, s, h, act);
        CalmPairs(p, s, t);
      }
    case Serve(x, deed) =>
      CalmDeed(p, s, x, deed);
      CalmPairs(p, s, t);
    case _ =>
      CalmOther(p, s, step);
      CalmPairs(p, s, t);
  }

  lemma LogsAfter(p: Params, s: State, step: Step)
    requires Inv(p, s) && Enabled(p, s, step)
    ensures forall c :: LogOk(Apply(p, s, step), c)
  {
    InvStep(p, s, step);
  }

  lemma {:induction false} PairRun(p: Params, s: State, steps: seq<Step>)
    requires Inv(p, s) && PairInv(p, s) && ClearRun(p, s, steps)
    ensures ValidRun(p, s, steps) && Inv(p, Exec(p, s, steps)) && PairInv(p, Exec(p, s, steps))
    decreases |steps|
  {
    if steps != [] {
      InvStep(p, s, steps[0]);
      PairStep(p, s, steps[0]);
      PairRun(p, Apply(p, s, steps[0]), steps[1..]);
    }
  }

  lemma PairReached(p: Params, s: State)
    requires ClearlyReached(p, s)
    ensures Inv(p, s) && PairInv(p, s)
  {
    var steps :| ClearRun(p, INIT, steps) && ValidRun(p, INIT, steps) && Exec(p, INIT, steps) == s;
    PairRun(p, INIT, steps);
  }

  // ------------------------------------------------------------ what can be in the way of a bind

  /** In a clear run the listener of another session is never in the way of a bind for being the
    * same service: it is another service at a conflicting address, or the session's own listener
    * for a name it has asked for twice. This holds of displaced sessions as of the newest. */
  lemma BlockedBy(p: Params, s: State, h: nat, l: nat)
    requires ClearlyReached(p, s)
    requires h < |s.handlers| && Wanted(p, s.handlers[h]).Some? && l < |s.listeners| && s.listeners[l].open
    ensures var x, y := s.handlers[h], s.listeners[l];
            && y.owner < |s.handlers|
            && (s.handlers[y.owner].client == x.client && y.service == x.requested[x.pc.i] ==>
                  y.owner == h && y.at < x.pc.i && x.requested[y.at] == x.requested[x.pc.i])
  {
    PairReached(p, s);
    assert ListenerOk(p, s, l);
    var x, y := s.handlers[h], s.listeners[l];
    var g := y.owner;
    if s.handlers[g].client == x.client && y.service == x.requested[x.pc.i] {
      assert LoggedOk(s, h) && LoggedOk(s, g);
      HolderIsSelf(p, s, h, g, l);
    }
  }

  lemma HolderIsSelf(p: Params, s: State, h: nat, g: nat, l: nat)
    requires h < |s.handlers| && g < |s.handlers| && Wanted(p, s.handlers[h]).Some?
    requires LogOk(s, s.handlers[h].client) && LogPairsOk(p, s, s.handlers[h].client)
    requires h in LogOf(s, s.handlers[h].client) && g in LogOf(s, s.handlers[h].client)
    requires Holds(s, l, g, s.handlers[h].requested[s.handlers[h].pc.i]) && ListenerOk(p, s, l)
    ensures g == h
  {
    var x := s.handlers[h];
    var name := x.requested[x.pc.i];
    var log := LogOf(s, x.client);
    var i :| 0 <= i < |log| && log[i] == h;
    assert Ahead(x, name) && name in x.requested;
    forall k | 0 <= k < i ensures !Holds(s, l, log[k], name) {
      assert PairOk(p, s, log[k], log[i]);
      assert LetsGo(p, s, log[k], name, x.pc);
    }
    forall k | i < k < |log| ensures !Holds(s, l, log[k], name) {
      assert PairOk(p, s, log[i], log[k]);
      NewerHoldsNot(p, s, h, log[k], l, name);
    }
  }

  /** A newer session that holds a name has started, so this one would have let go of it. */
  lemma NewerHoldsNot(p: Params, s: State, h: nat, g: nat, l: nat, name: Str)
    requires h < |s.handlers| && g < |s.handlers| && PairOk(p, s, h, g) && l < |s.listeners| && ListenerOk(p, s, l)
    requires Ahead(s.handlers[h], name) && Lookup(p, s.handlers[h].client, name).Some?
    ensures !Holds(s, l, g, name)
  {
    var x := s.handlers[g];
    assert Started(x.pc) && name in x.requested ==> LetsGo(p, s, h, name, x.pc);
  }

  /** No two services of the server are at conflicting addresses. */
  ghost predicate ServicesApart(p: Params)
  {
    forall c, n, c', n' ::
      Lookup(p, c, n).Some? && Lookup(p, c', n').Some? && Conflict(p, Lookup(p, c, n).value, Lookup(p, c', n').value) ==>
        c == c' && n == n'
  }

  /** No service is at an address that conflicts with the control address. */
  ghost predicate ControlApart(p: Params)
  {
    forall c, n :: Lookup(p, c, n).Some? ==> !Conflict(p, p.control, Lookup(p, c, n).value)
  }

  /** A session of a clear run is about to bind, and has asked for distinct names. */
  ghost predicate AboutToBind(p: Params, s: State, h: nat)
  {
    && ClearlyReached(p, s) && !s.ctxDone
    && h < |s.handlers| && Wanted(p, s.handlers[h]).Some? && NoDup(s.handlers[h].requested)
  }

  /** With services at addresses apart, a bind is possible exactly when its address does not conflict
    * with the one the server keeps for itself. */
  lemma BindPossibleIff(p: Params, s: State, h: nat)
    requires AboutToBind(p, s, h) && ServicesApart(p)
    ensures Enabled(p, s, Handle(h, BindOk)) <==> !Conflict(p, p.control, Wanted(p, s.handlers[h]).value)
  {
    var addr := Wanted(p, s.handlers[h]).value;
    forall l | 0 <= l < |s.listeners| ensures !Blocks(p, s.listeners[l], addr) {
      if Blocks(p, s.listeners[l], addr) {
        PairReached(p, s);
        assert ListenerOk(p, s, l);
        BlockedBy(p, s, h, l);
      }
    }
  }

  // ------------------------------------------------------------ clean runs are clear

  /** A session that has ended its loop has no name ahead, and lists what it has open. */
  lemma EndedLetsGo(p: Params, s: State, g: nat, name: Str, pc: Pc)
    requires ListenerInv(p, s) && g < |s.handlers| && LoopEnded(s.handlers[g].pc)
    requires forall l: nat :: l < |s.listeners| && s.listeners[l].open && s.listeners[l].owner == g ==> ToClose(pc, l)
    ensures LetsGo(p, s, g, name, pc)
  {}

  lemma CleanSnapshot(p: Params, s: State, h: nat)
    requires Inv(p, s) && HandoverInv(s) && h < |s.handlers| && s.handlers[h].pc.DisplaceSnapshot?
    ensures OlderLetGo(p, s, h, DisplaceStep(s, h).handlers[h].pc)
  {
    var c := s.handlers[h].client;
    var next := DisplaceStep(s, h).handlers[h].pc;
    var log := LogOf(s, c);
    NotEndedIsNewest(p, s, h);
    assert HandoverOk(s, c) && LogOk(s, c) && NewestPc(s, c) == s.handlers[h].pc;
    forall g: nat, name | g < |s.handlers| && Older(s, h, g) && name in s.handlers[h].requested
      ensures LetsGo(p, s, g, name, next)
    {
      forall l: nat | l < |s.listeners| && s.listeners[l].open && s.listeners[l].owner == g ensures ToClose(next, l) {
        assert OpenFor(s, l, c);
        assert HeldBy(s, c, l);
        EndedListed(p, s, l);
      }
      EndedLetsGo(p, s, g, name, next);
    }
  }

  lemma CleanRegister(p: Params, s: State, h: nat)
    requires Inv(p, s) && HandoverInv(s) && h < |s.handlers| && Enabled(p, s, Handle(h, Register))
    requires CleanStep(s, Handle(h, Register)) && s.handlers[h].client !in s.registry
    ensures OlderLetGo(p, s, h, Listening(0))
  {
    var c := s.handlers[h].client;
    assert HandoverOk(s, c) && LogOk(s, c) && RegistryOk(s, c);
    forall g: nat, name | g < |s.handlers| && Older(s, h, g) && name in s.handlers[h].requested
      ensures LetsGo(p, s, g, name, Listening(0))
    {
      forall l: nat | l < |s.listeners| && s.listeners[l].owner == g ensures !s.listeners[l].open {
        if s.listeners[l].open {
          assert OpenFor(s, l, c);
          OpenAtRegistration(p, s, c, l);
        }
      }
      EndedLetsGo(p, s, g, name, Listening(0));
    }
  }

  lemma CleanIsClear(p: Params, s: State, step: Step)
    requires Inv(p, s) && HandoverInv(s) && Enabled(p, s, step) && CleanStep(s, step)
    ensures ClearStep(p, s, step)
  {
    if Starts(p, s, step) {
      if step.act.Displace? {
        CleanSnapshot(p, s, step.h);
      } else {
        CleanRegister(p, s, step.h);
      }
    }
  }

  lemma {:induction false} CleanRunIsClear(p: Params, s: State, steps: seq<Step>)
    requires Inv(p, s) && HandoverInv(s) && CleanRun(p, s, steps)
    ensures ClearRun(p, s, steps)
    decreases |steps|
  {
    if steps != [] {
      CleanIsClear(p, s, steps[0]);
      InvStep(p, s, steps[0]);
      HandoverStep(p, s, steps[0]);
      CleanRunIsClear(p, Apply(p, s, steps[0]), steps[1..]);
    }
  }

  /** A run in which every session ends its listen loop before its client's next one registers is
    * clear, so all of the above holds of it. */
  lemma CleanlyIsClearly(p: Params, s: State)
    requires CleanlyReached(p, s)
    ensures ClearlyReached(p, s)
  {
    var steps :| CleanRun(p, INIT, steps) && ValidRun(p, INIT, steps) && Exec(p, INIT, steps) == s;
    CleanRunIsClear(p, INIT, steps);
  }
}
