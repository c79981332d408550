/** What clients and users get from the server: all services or none, the service behind the address
  * that was dialled, and an end to sessions that were displaced. */
module ServiceGuarantees {
  import opened Bytes
  import opened SessionMachine
  import opened SessionInvariants
  import opened Handover
  import opened Progress
  import opened Service
  import opened Collisions
  import opened CollisionRuns

  // ------------------------------------------------------------ all services or none

  /** A serving session has bound every name it was asked for that has an address; and until it is
    * told to stop, each of these has an open listener at that address with acceptUsers on it. */
  lemma ServesAllOrNone(p: Params, s: State, h: nat, i: nat)
    requires Reachable(p, s) && h < |s.handlers| && s.handlers[h].pc.Serving?
    requires i < |s.handlers[h].requested| && Lookup(p, s.handlers[h].client, s.handlers[h].requested[i]).Some?
    ensures exists l: nat :: Owned(s, h, l) && s.listeners[l].at == i
              && s.listeners[l].service == s.handlers[h].requested[i]
              && Lookup(p, s.handlers[h].client, s.handlers[h].requested[i]) == Some(s.listeners[l].addr)
              && s.listeners[l].watched && (!s.handlers[h].cancelled && !s.ctxDone ==> s.listeners[l].open)
  {
    ServeReachable(p, s);
    assert ServiceOk(p, s, h);
    assert HasAddress(p, s.handlers[h], i) && BoundAt(s, h, i);
    var l: nat :| Owned(s, h, l) && s.listeners[l].at == i;
    assert ListenerServes(s, h, l) && ListenerOk(p, s, l);
  }

  /** Until its mux closes, a serving session goes on serving, whatever else happens. */
  lemma {:induction false} ServesUntilMuxCloses(p: Params, s: State, steps: seq<Step>, h: nat)
    requires ValidRun(p, s, steps) && h < |s.handlers| && s.handlers[h].pc.Serving?
    ensures h < |Exec(p, s, steps).handlers|
    ensures !Exec(p, s, steps).handlers[h].muxClosed ==> Exec(p, s, steps).handlers[h].pc.Serving?
    decreases |steps|
  {
    if steps != [] {
      var t := Apply(p, s, steps[0]);
      if s.handlers[h].muxClosed {
        MuxStaysClosed(p, s, steps, h);
      } else {
        ServingStep(p, s, steps[0], h);
        ServesUntilMuxCloses(p, t, steps[1..], h);
      }
    }
  }

  lemma ServingStep(p: Params, s: State, step: Step, h: nat)
    requires Enabled(p, s, step) && h < |s.handlers| && s.handlers[h].pc.Serving? && !s.handlers[h].muxClosed
    ensures h < |Apply(p, s, step).handlers| && Apply(p, s, step).handlers[h].pc.Serving?
  {
    OthersUntouch(p, s, step, h);
  }

  /** The session has begun to leave, or has left. */
  predicate Leaving(pc: Pc)
  {
    pc.Removing? || pc.Closing? || RemovalDone(pc)
  }

  lemma LeavingStep(p: Params, s: State, step: Step, h: nat)
    requires Enabled(p, s, step) && h < |s.handlers| && Leaving(s.handlers[h].pc)
    ensures h < |Apply(p, s, step).handlers| && Leaving(Apply(p, s, step).handlers[h].pc)
  {
    if IsOwn(step, h) {
      ActAddsNone(p, s, h, step.act);
      if MovesOnlyPc(step.act) {
        PcEffect(p, s, h, step.act);
      }
    } else {
      OthersUntouch(p, s, step, h);
    }
  }

  lemma {:induction false} LeavingRun(p: Params, s: State, steps: seq<Step>, h: nat)
    requires ValidRun(p, s, steps) && h < |s.handlers| && Leaving(s.handlers[h].pc)
    ensures h < |Exec(p, s, steps).handlers| && Leaving(Exec(p, s, steps).handlers[h].pc)
    decreases |steps|
  {
    if steps != [] {
      LeavingStep(p, s, steps[0], h);
      LeavingRun(p, Apply(p, s, steps[0]), steps[1..], h);
    }
  }

  /** A session one of whose binds fails never serves: whatever comes after, it only leaves. */
  lemma FailedBindEndsSession(p: Params, s: State, h: nat, steps: seq<Step>)
    requires Enabled(p, s, Handle(h, Private(BindFails)))
    requires ValidRun(p, Apply(p, s, Handle(h, Private(BindFails))), steps)
    ensures var t := Exec(p, Apply(p, s, Handle(h, Private(BindFails))), steps);
            h < |t.handlers| && Leaving(t.handlers[h].pc) && !t.handlers[h].pc.Serving?
  {
    var t := Apply(p, s, Handle(h, Private(BindFails)));
    assert Leaving(t.handlers[h].pc);
    LeavingRun(p, t, steps, h);
  }

  // ------------------------------------------------------------ sessions come to serve

  /** A session goes through its names and serves, unless a collision stops it. */
  lemma ComesToServe(p: Params, s0: State, s: State, x: nat) returns (t: State)
    requires Reaches(p, s0, s) && Inv(p, s) && Apart(p) && AllDistinct(s) && x < |s.handlers| && s.handlers[x].pc == Listening(0)
    ensures Reaches(p, s0, t) && Inv(p, t) && Advanced(s, t, x)
    ensures Collision(p, t, s.handlers[x].client) || t.handlers[x].pc.Serving?
  {
    t := PassesAll(p, s0, s, x);
    if !Collision(p, t, s.handlers[x].client) {
      var u := EndsLoop(p, s0, t, x);
      AdvancedTrans(s, t, u, x);
      t := u;
    }
  }

  lemma PassesAll(p: Params, s0: State, s: State, x: nat) returns (t: State)
    requires Reaches(p, s0, s) && Inv(p, s) && Apart(p) && AllDistinct(s) && x < |s.handlers| && s.handlers[x].pc == Listening(0)
    ensures Reaches(p, s0, t) && Inv(p, t) && Advanced(s, t, x)
    ensures Collision(p, t, s.handlers[x].client) || t.handlers[x].pc == Listening(|s.handlers[x].requested|)
  {
    var n := |s.handlers[x].requested|;
    if n == 0 {
      return s;
    }
    t := LoopsTo(p, s0, s, x, n - 1);
    if !Collision(p, t, s.handlers[x].client) {
      KeepsDistinct(s, t, x);
      t := LastAfter(p, s0, s, t, x);
    }
  }

  lemma LastAfter(p: Params, s0: State, s: State, u: State, x: nat) returns (t: State)
    requires Reaches(p, s0, u) && Inv(p, u) && Apart(p) && AllDistinct(u) && x < |s.handlers| && Advanced(s, u, x)
    requires |s.handlers[x].requested| > 0 && u.handlers[x].pc == Listening(|s.handlers[x].requested| - 1)
    ensures Reaches(p, s0, t) && Inv(p, t) && Advanced(s, t, x)
    ensures Collision(p, t, s.handlers[x].client) || t.handlers[x].pc == Listening(|s.handlers[x].requested|)
  {
    assert InLoop(u.handlers[x]);
    t := LastName(p, s0, u, x);
    AdvancedTrans(s, u, t, x);
  }

  lemma LastName(p: Params, s0: State, s: State, x: nat) returns (t: State)
    requires Reaches(p, s0, s) && Inv(p, s) && Apart(p) && AllDistinct(s) && x < |s.handlers| && InLoop(s.handlers[x])
    ensures Reaches(p, s0, t) && Inv(p, t) && Advanced(s, t, x)
    ensures Collision(p, t, s.handlers[x].client) || t.handlers[x].pc == Listening(s.handlers[x].pc.i + 1)
  {
    if Wanted(p, s.handlers[x]).None? {
      t := Skips(p, s0, s, x);
    } else if !AddrFree(p, s, Wanted(p, s.handlers[x]).value) {
      BlockedCollides(p, s, x);
      t := s;
    } else {
      t := BindsOne(p, s0, s, x);
    }
  }

  lemma EndsLoop(p: Params, s0: State, s: State, x: nat) returns (t: State)
    requires Reaches(p, s0, s) && Inv(p, s) && x < |s.handlers|
    requires s.handlers[x].pc.Listening? && s.handlers[x].pc.i >= |s.handlers[x].requested|
    ensures Reaches(p, s0, t) && Inv(p, t) && Advanced(s, t, x) && t.handlers[x].pc.Serving?
  {
    t := Apply(p, s, Handle(x, Private(LoopEnds)));
    Go(p, s0, s, Handle(x, Private(LoopEnds)));
    MoveAdvances(p, s, x, LoopEnds);
  }

  /** A first session can come to serve whatever distinct names its client asks for, all of them. */
  lemma FirstSessionServes(p: Params, c: Str, requested: seq<Str>) returns (t: State)
    requires Apart(p) && NoDup(requested)
    ensures Reachable(p, t) && |t.handlers| == 1 && t.handlers[0].pc.Serving?
    ensures t.handlers[0].client == c && t.handlers[0].requested == requested
  {
    ComesAlone(p, c, requested);
    var s := Alone(c, requested);
    PairReached(p, s);
    assert Reachable(p, s);
    ReachesSelf(p, s);
    t := ComesToServe(p, s, s, 0);
    ReachesFrom(p, s, t);
    assert !Collision(p, t, c);
  }

  lemma ReachesFrom(p: Params, s: State, t: State)
    requires Reachable(p, s) && Reaches(p, s, t)
    ensures Reachable(p, t)
  {
    var steps :| ValidRun(p, s, steps) && Exec(p, s, steps) == t;
    ReachRun(p, s, steps);
  }

  // ------------------------------------------------------------ listeners of sessions that were told to stop

  /** acceptUsers is on the listener, and its session or the whole server was told to stop. */
  ghost predicate ToldToClose(s: State, l: nat)
  {
    l < |s.listeners| && s.listeners[l].watched && s.listeners[l].owner < |s.handlers|
    && (s.ctxDone || s.handlers[s.listeners[l].owner].cancelled)
  }

  lemma CloserCloses(p: Params, s0: State, s: State, l: nat) returns (t: State)
    requires Reaches(p, s0, s) && Inv(p, s) && ToldToClose(s, l)
    ensures Reaches(p, s0, t) && Inv(p, t) && t.handlers == s.handlers && t.ctxDone == s.ctxDone
    ensures t.listeners == s.listeners[l := s.listeners[l].(open := false)]
  {
    Go(p, s0, s, CloserFires(l));
    t := Apply(p, s, CloserFires(l));
  }

  /** From any moment on, the goroutines beside acceptUsers can close exactly the listeners of the
    * sessions that were told to stop, and nothing else changes. */
  lemma {:induction false} ClosersClose(p: Params, s: State, n: nat) returns (t: State)
    requires Inv(p, s) && n <= |s.listeners|
    ensures Reaches(p, s, t) && Inv(p, t) && t.handlers == s.handlers && t.ctxDone == s.ctxDone && |t.listeners| == |s.listeners|
    ensures forall l :: 0 <= l < |s.listeners| ==>
              t.listeners[l] == if l < n && ToldToClose(s, l) then s.listeners[l].(open := false) else s.listeners[l]
  {
    if n == 0 {
      ReachesSelf(p, s);
      t := s;
    } else {
      var u := ClosersClose(p, s, n - 1);
      t := u;
      if ToldToClose(s, n - 1) {
        assert u.listeners[n - 1] == s.listeners[n - 1];
        t := CloserCloses(p, s, u, n - 1);
      }
    }
  }

  /** Telling the server to stop is enough to have no user accepted any more. */
  lemma StoppedServerCloses(p: Params, s: State) returns (t: State)
    requires Reachable(p, s)
    ensures Reachable(p, t) && |t.listeners| == |s.listeners|
    ensures forall l: nat :: l < |s.listeners| && s.listeners[l].watched ==>
              !t.listeners[l].open && forall user :: !Enabled(p, t, UserArrives(l, user))
  {
    InvReachable(p, s);
    ReachStep(p, s, CtxDone);
    var u := Apply(p, s, CtxDone);
    InvReachable(p, u);
    t := ClosersClose(p, u, |u.listeners|);
    ReachesFrom(p, u, t);
    forall l: nat | l < |s.listeners| && s.listeners[l].watched
      ensures !t.listeners[l].open && forall user :: !Enabled(p, t, UserArrives(l, user))
    {
      assert ListenerOk(p, u, l) && ToldToClose(u, l);
    }
  }

  // ------------------------------------------------------------ users

  /** A user who dials an open service listener of a session with a living mux and a free slot, and
    * whom the service admits, can get through, and then the one Open header that was written for it names the very service that the
    * client's allowlist puts at the address dialled, on a stream of that client's session. */
  lemma UserIsRouted(p: Params, s: State, l: nat, user: Str)
    requires Reachable(p, s) && l < |s.listeners| && s.listeners[l].open && s.listeners[l].watched
    requires s.listeners[l].owner < |s.handlers|
    requires s.handlers[s.listeners[l].owner].slots < p.maxStreams && !s.handlers[s.listeners[l].owner].muxClosed
    requires p.admits(s.handlers[s.listeners[l].owner].client, s.listeners[l].service, user)
    ensures var n, y := |s.proxies|, s.listeners[l];
            var run := [UserArrives(l, user), Serve(n, TakeSlot), Serve(n, StreamOk), Serve(n, HeaderOk)];
            && ValidRun(p, s, run)
            && var t := Exec(p, s, run);
               && |t.headers| == |s.headers| + 1 && t.headers[..|s.headers|] == s.headers
               && t.headers[|s.headers|].owner == y.owner && t.headers[|s.headers|].user == user
               && Lookup(p, s.handlers[y.owner].client, t.headers[|s.headers|].service) == Some(y.addr)
               && y.at < |s.handlers[y.owner].requested| && s.handlers[y.owner].requested[y.at] == t.headers[|s.headers|].service
               && |t.handlers| == |s.handlers| && t.handlers[y.owner].slots == s.handlers[y.owner].slots + 1
  {
    InvReachable(p, s);
    assert ListenerOk(p, s, l);
    UserSteps(p, s, l, user);
  }

  lemma UserSteps(p: Params, s: State, l: nat, user: Str)
    requires l < |s.listeners| && s.listeners[l].open && s.listeners[l].watched && s.listeners[l].owner < |s.handlers|
    requires s.handlers[s.listeners[l].owner].slots < p.maxStreams && !s.handlers[s.listeners[l].owner].muxClosed
    requires p.admits(s.handlers[s.listeners[l].owner].client, s.listeners[l].service, user)
    ensures var n, y := |s.proxies|, s.listeners[l];
            var run := [UserArrives(l, user), Serve(n, TakeSlot), Serve(n, StreamOk), Serve(n, HeaderOk)];
            && ValidRun(p, s, run)
            && var t := Exec(p, s, run);
               && t.headers == s.headers + [Header(y.owner, y.service, user)]
               && |t.handlers| == |s.handlers| && t.handlers[y.owner].slots == s.handlers[y.owner].slots + 1
  {
    var n, y := |s.proxies|, s.listeners[l];
    var s1 := Apply(p, s, UserArrives(l, user));
    var s2 := Apply(p, s1, Serve(n, TakeSlot));
    var s3 := Apply(p, s2, Serve(n, StreamOk));
    assert s1.proxies[n] == Proxy(y.owner, y.service, user, Arrived);
    assert s2.proxies[n] == Proxy(y.owner, y.service, user, Holding) && s3.proxies[n] == Proxy(y.owner, y.service, user, StreamOpen);
    FourSteps(p, s, UserArrives(l, user), Serve(n, TakeSlot), Serve(n, StreamOk), Serve(n, HeaderOk));
  }

  /** A user whom the service's allowlist does not admit leaves no trace. */
  lemma StrangersAreTurnedAway(p: Params, s: State, l: nat, user: Str)
    requires Enabled(p, s, UserArrives(l, user))
    requires !p.admits(s.handlers[s.listeners[l].owner].client, s.listeners[l].service, user)
    ensures Apply(p, s, UserArrives(l, user)) == s
  {}

  /** When the slots are used up, the user is dropped: no slot is taken and no header written. */
  lemma FullServerDrops(p: Params, s: State, l: nat, user: Str)
    requires Reachable(p, s) && l < |s.listeners| && s.listeners[l].open && s.listeners[l].watched
    requires s.listeners[l].owner < |s.handlers| && s.handlers[s.listeners[l].owner].slots >= p.maxStreams
    requires p.admits(s.handlers[s.listeners[l].owner].client, s.listeners[l].service, user)
    ensures var n := |s.proxies|;
            && Enabled(p, s, UserArrives(l, user)) && Enabled(p, Apply(p, s, UserArrives(l, user)), Serve(n, TakeSlot))
            && var t := Apply(p, Apply(p, s, UserArrives(l, user)), Serve(n, TakeSlot));
               t.headers == s.headers && t.handlers == s.handlers && |t.proxies| == n + 1 && t.proxies[n].pc.Finished?
  {}

  /** No stream is opened on a mux that is closed. */
  lemma ClosedMuxOpensNothing(p: Params, s: State, x: nat)
    requires x < |s.proxies| && s.proxies[x].owner < |s.handlers| && s.handlers[s.proxies[x].owner].muxClosed
    ensures !Enabled(p, s, Serve(x, StreamOk))
  {}

  /** A user whose stream or header failed, or whose relay has ended, gives its slot back. */
  lemma UserLeaves(p: Params, s: State, x: nat, deed: Deed)
    requires Reachable(p, s) && x < |s.proxies| && s.proxies[x].owner < |s.handlers|
    requires (s.proxies[x].pc.Holding? && deed.StreamFails?) || (s.proxies[x].pc.StreamOpen? && deed.HeaderFails?)
             || (s.proxies[x].pc.Relaying? && deed.RelayEnds?)
    ensures Enabled(p, s, Serve(x, deed)) && Enabled(p, Apply(p, s, Serve(x, deed)), Serve(x, ReleaseSlot))
    ensures var t, g := Apply(p, Apply(p, s, Serve(x, deed)), Serve(x, ReleaseSlot)), s.proxies[x].owner;
            && |t.proxies| == |s.proxies| && t.proxies[x].pc.Finished? && t.headers == s.headers
            && |t.handlers| == |s.handlers| && t.handlers[g].slots == s.handlers[g].slots - 1
  {
    InvReachable(p, s);
    HolderIsActive(s.proxies, x, s.proxies[x].owner);
  }

  lemma FourSteps(p: Params, s: State, a: Step, b: Step, c: Step, d: Step)
    requires Enabled(p, s, a) && Enabled(p, Apply(p, s, a), b) && Enabled(p, Apply(p, Apply(p, s, a), b), c)
    requires Enabled(p, Apply(p, Apply(p, Apply(p, s, a), b), c), d)
    ensures ValidRun(p, s, [a, b, c, d])
    ensures Exec(p, s, [a, b, c, d]) == Apply(p, Apply(p, Apply(p, Apply(p, s, a), b), c), d)
  {
    RunOfOne(p, s, a, [b, c, d]);
    RunOfOne(p, Apply(p, s, a), b, [c, d]);
    RunOfOne(p, Apply(p, Apply(p, s, a), b), c, [d]);
    RunOfOne(p, Apply(p, Apply(p, Apply(p, s, a), b), c), d, []);
  }

  lemma RunOfOne(p: Params, s: State, step: Step, rest: seq<Step>)
    requires Enabled(p, s, step)
    ensures ValidRun(p, s, [step] + rest) <==> ValidRun(p, Apply(p, s, step), rest)
    ensures ValidRun(p, s, [step] + rest) ==> Exec(p, s, [step] + rest) == Exec(p, Apply(p, s, step), rest)
  {
    assert ([step] + rest)[1..] == rest;
  }
}
