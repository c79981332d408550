/** The Server struct as an object: its methods on the shared state, run without interruption, are
  * runs of the step system. */
module ServerObject {
  import opened Bytes
  import opened SessionMachine
  import opened SessionInvariants

  /** The run that repeats one act of handler h. */
  function Repeat(h: nat, act: Act, n: nat): (r: seq<Step>)
    ensures |r| == n
  {
    if n == 0 then [] else Repeat(h, act, n - 1) + [Handle(h, act)]
  }

  /** The listeners after the first k of lns have been closed. */
  function CloseFirst(ls: seq<Listener>, lns: seq<nat>, k: nat): (r: seq<Listener>)
    requires k <= |lns|
    ensures |r| == |ls|
  {
    if k == 0 then ls
    else
      var c := CloseFirst(ls, lns, k - 1);
      if lns[k - 1] < |c| then c[lns[k - 1] := c[lns[k - 1]].(open := false)] else c
  }

  lemma {:induction false} CloseFirstAt(ls: seq<Listener>, lns: seq<nat>, k: nat, l: nat)
    requires k <= |lns| && l < |ls|
    ensures CloseFirst(ls, lns, k)[l] == if l in lns[..k] then ls[l].(open := false) else ls[l]
  {
    if k > 0 {
      CloseFirstAt(ls, lns, k - 1, l);
      assert lns[..k] == lns[..k - 1] + [lns[k - 1]];
    }
  }

  // ------------------------------------------------------------ removeSession as a run

  /** removeSession by h, begun in s, after k listeners. */
  function Removed(s: State, h: nat, k: nat): (r: State)
    requires h < |s.handlers| && k <= |s.handlers[h].listeners|
  {
    var x := s.handlers[h];
    Unregister(s, h).(handlers := s.handlers[h := x.(pc := Closing(k))], listeners := CloseFirst(s.listeners, x.listeners, k))
  }

  lemma RemovedStep(s: State, h: nat, k: nat)
    requires h < |s.handlers| && k < |s.handlers[h].listeners|
    ensures CloseOwnStep(Removed(s, h, k), h) == Removed(s, h, k + 1)
  {
    var t := CloseOwnStep(Removed(s, h, k), h);
    assert t.handlers == Removed(s, h, k + 1).handlers;
    assert t.listeners == CloseFirst(s.listeners, s.handlers[h].listeners, k + 1);
  }

  function RemovalRun(h: nat, k: nat): (r: seq<Step>)
  {
    [Handle(h, LockRegistry)] + Repeat(h, CloseOwn, k)
  }

  lemma {:induction false} RemovalIsRun(p: Params, s: State, h: nat, k: nat)
    requires h < |s.handlers| && s.handlers[h].pc.Removing? && s.mu.None? && k <= |s.handlers[h].listeners|
    ensures ValidRun(p, s, RemovalRun(h, k)) && Exec(p, s, RemovalRun(h, k)) == Removed(s, h, k)
  {
    if k == 0 {
      RunExtends(p, s, [], Handle(h, LockRegistry));
      assert [] + [Handle(h, LockRegistry)] == RemovalRun(h, 0);
      assert Unregister(s, h) == Removed(s, h, 0);
    } else {
      RemovalIsRun(p, s, h, k - 1);
      RemovedStep(s, h, k - 1);
      RunExtends(p, s, RemovalRun(h, k - 1), Handle(h, CloseOwn));
      assert RemovalRun(h, k - 1) + [Handle(h, CloseOwn)] == RemovalRun(h, k);
    }
  }

  /** The whole of removeSession: after the last listener the lock is released. */
  function RemovalDoneState(s: State, h: nat): (r: State)
    requires h < |s.handlers|
  {
    var x := s.handlers[h];
    Removed(s, h, |x.listeners|).(handlers := s.handlers[h := x.(pc := ClosingMux)], mu := None)
  }

  lemma RemovalEnds(p: Params, s: State, h: nat)
    requires h < |s.handlers| && s.handlers[h].pc.Removing? && s.mu.None?
    ensures var run := RemovalRun(h, |s.handlers[h].listeners| + 1);
            ValidRun(p, s, run) && Exec(p, s, run) == RemovalDoneState(s, h)
  {
    var n := |s.handlers[h].listeners|;
    RemovalIsRun(p, s, h, n);
    RunExtends(p, s, RemovalRun(h, n), Handle(h, CloseOwn));
    assert RemovalRun(h, n) + [Handle(h, CloseOwn)] == RemovalRun(h, n + 1);
    assert CloseOwnStep(Removed(s, h, n), h).handlers == RemovalDoneState(s, h).handlers;
  }

  /** In a state the server can be in, removeSession closes exactly the session's own listeners. */
  lemma RemovalClosesOwn(p: Params, s: State, h: nat, l: nat)
    requires Inv(p, s) && h < |s.handlers| && s.handlers[h].pc.Removing? && l < |s.listeners|
    ensures var y := RemovalDoneState(s, h).listeners[l];
            y == (if s.listeners[l].owner == h then s.listeners[l].(open := false) else s.listeners[l])
  {
    var lns := s.handlers[h].listeners;
    CloseFirstAt(s.listeners, lns, |lns|, l);
    assert lns[..|lns|] == lns;
    assert ListenerOk(p, s, l) && ListsOk(s, h);
    if l in lns {
      var j :| 0 <= j < |lns| && lns[j] == l;
      assert Owns(s, h, lns[j]);
    }
  }

  // ------------------------------------------------------------ shutdown as a run

  /** old.shutdown() by h, begun in s, after the first n statements of its loop phase. */
  function ShutDown(s: State, h: nat, pc: Pc, cancelled: bool, muxClosed: bool, k: nat): (r: State)
    requires h < |s.handlers| && s.handlers[h].pc.DisplaceCancel? && s.handlers[h].pc.prior < |s.handlers|
    requires k <= |s.handlers[s.handlers[h].pc.prior].listeners|
  {
    var prior := s.handlers[h].pc.prior;
    var y := s.handlers[prior].(cancelled := s.handlers[prior].cancelled || cancelled,
                                muxClosed := s.handlers[prior].muxClosed || muxClosed);
    s.(handlers := s.handlers[prior := y][h := s.handlers[h].(pc := pc)],
       listeners := CloseFirst(s.listeners, s.handlers[prior].listeners, k))
  }

  ghost predicate CanShutDown(s: State, h: nat)
  {
    h < |s.handlers| && s.handlers[h].pc.DisplaceCancel? && s.handlers[h].pc.prior < |s.handlers|
    && s.handlers[h].pc.prior != h
  }

  /** The run has got to here. */
  ghost predicate GotTo(p: Params, s: State, h: nat, n: nat, here: State)
  {
    ValidRun(p, s, Repeat(h, Displace, n)) && Exec(p, s, Repeat(h, Displace, n)) == here
  }

  lemma OneMore(p: Params, s: State, h: nat, n: nat, here: State)
    requires GotTo(p, s, h, n, here) && Enabled(p, here, Handle(h, Displace))
    ensures GotTo(p, s, h, n + 1, DisplaceStep(here, h))
  {
    RunExtends(p, s, Repeat(h, Displace, n), Handle(h, Displace));
  }

  lemma ShutdownStarts(p: Params, s: State, h: nat)
    requires CanShutDown(s, h)
    ensures var prior := s.handlers[h].pc.prior;
            GotTo(p, s, h, 2, ShutDown(s, h, DisplaceClose(prior, s.handlers[prior].listeners, 0), true, false, 0))
  {
    var prior := s.handlers[h].pc.prior;
    var s1 := ShutDown(s, h, DisplaceSnapshot(prior), true, false, 0);
    var s2 := ShutDown(s, h, DisplaceClose(prior, s.handlers[prior].listeners, 0), true, false, 0);
    assert GotTo(p, s, h, 0, s);
    OneMore(p, s, h, 0, s);
    assert DisplaceStep(s, h).handlers == s1.handlers;
    OneMore(p, s, h, 1, s1);
    assert DisplaceStep(s1, h).handlers == s2.handlers;
  }

  lemma ShutdownCloseStep(s: State, h: nat, k: nat)
    requires CanShutDown(s, h) && k < |s.handlers[s.handlers[h].pc.prior].listeners|
    ensures var prior := s.handlers[h].pc.prior;
            var lns := s.handlers[prior].listeners;
            DisplaceStep(ShutDown(s, h, DisplaceClose(prior, lns, k), true, false, k), h)
            == ShutDown(s, h, DisplaceClose(prior, lns, k + 1), true, false, k + 1)
  {
    var prior := s.handlers[h].pc.prior;
    var lns := s.handlers[prior].listeners;
    var a := ShutDown(s, h, DisplaceClose(prior, lns, k), true, false, k);
    var b := ShutDown(s, h, DisplaceClose(prior, lns, k + 1), true, false, k + 1);
    assert DisplaceStep(a, h).handlers == b.handlers;
    assert DisplaceStep(a, h).listeners == b.listeners;
  }

  lemma {:induction false} ShutdownCloses(p: Params, s: State, h: nat, k: nat)
    requires CanShutDown(s, h) && k <= |s.handlers[s.handlers[h].pc.prior].listeners|
    ensures var prior := s.handlers[h].pc.prior;
            GotTo(p, s, h, k + 2, ShutDown(s, h, DisplaceClose(prior, s.handlers[prior].listeners, k), true, false, k))
  {
    if k == 0 {
      ShutdownStarts(p, s, h);
    } else {
      ShutdownCloses(p, s, h, k - 1);
      var prior := s.handlers[h].pc.prior;
      var lns := s.handlers[prior].listeners;
      OneMore(p, s, h, k + 1, ShutDown(s, h, DisplaceClose(prior, lns, k - 1), true, false, k - 1));
      ShutdownCloseStep(s, h, k - 1);
    }
  }

  lemma ShutdownEnds(p: Params, s: State, h: nat)
    requires CanShutDown(s, h)
    ensures var n := |s.handlers[s.handlers[h].pc.prior].listeners|;
            GotTo(p, s, h, n + 4, ShutDown(s, h, Listening(0), true, true, n))
  {
    var prior := s.handlers[h].pc.prior;
    var lns := s.handlers[prior].listeners;
    var n := |lns|;
    ShutdownCloses(p, s, h, n);
    var a := ShutDown(s, h, DisplaceClose(prior, lns, n), true, false, n);
    var b := ShutDown(s, h, DisplaceMux(prior), true, false, n);
    var c := ShutDown(s, h, Listening(0), true, true, n);
    OneMore(p, s, h, n + 2, a);
    assert DisplaceStep(a, h).handlers == b.handlers;
    OneMore(p, s, h, n + 3, b);
    assert DisplaceStep(b, h).handlers == c.handlers;
  }

  lemma RegisterEffect(p: Params, s: State, h: nat)
    requires Inv(p, s) && Enabled(p, s, Handle(h, Register))
    ensures Inv(p, Apply(p, s, Handle(h, Register)))
    ensures var c := s.handlers[h].client;
            c in s.registry ==>
              && s.registry[c] != h && s.registry[c] < |s.handlers| && s.handlers[s.registry[c]].client == c
              && Newest(s, c) == Some(s.registry[c])
  {
    InvStep(p, s, Handle(h, Register));
    var c := s.handlers[h].client;
    assert LogOk(s, c) && RegistryOk(s, c);
  }

  /** The Server struct: what its methods change under the mutex and on the channels, together with
    * the state of its goroutines, so that every method is a run of the step system. */
  class Server {
    const params: Params
    var handlers: seq<Handler>
    var tokens: nat
    var sessions: map<Str, nat>
    var mu: Option<nat>
    var listeners: seq<Listener>
    var proxies: seq<Proxy>
    var headers: seq<Header>
    var ctxDone: bool
    ghost var log: map<Str, seq<nat>>

    ghost function Abs(): (s: State)
      reads this
    {
      State(handlers, tokens, sessions, mu, listeners, proxies, headers, ctxDone, log)
    }

    /** NewServer, as far as the mutable state goes. */
    constructor (params: Params)
      ensures this.params == params && Abs() == INIT && Inv(params, Abs())
    {
      this.params := params;
      handlers, tokens, sessions, mu := [], 0, map[], None;
      listeners, proxies, headers, ctxDone, log := [], [], [], false, map[];
    }

    /** The select of Run: a free token starts a handler, otherwise the connection is dropped. */
    method TakeToken() returns (accepted: bool)
      requires Inv(params, Abs())
      modifies this
      ensures Abs() == Apply(params, old(Abs()), ConnArrives) && Inv(params, Abs())
      ensures accepted == (old(Holders(handlers)) < 64)
      ensures accepted ==> handlers == old(handlers) + [NEW_HANDLER]
      ensures !accepted ==> Abs() == old(Abs())
    {
      InvStep(params, Abs(), ConnArrives);
      accepted := tokens < MAX_PENDING_HANDSHAKES;
      if accepted {
        tokens := tokens + 1;
        handlers := handlers + [NEW_HANDLER];
      }
    }

    /** replaceSession: installs the new session and hands back the one it displaces. */
    method ReplaceSession(h: nat) returns (displaced: Option<nat>)
      requires Inv(params, Abs()) && h < |handlers| && handlers[h].pc.Registering? && mu.None?
      modifies this
      ensures Abs() == Apply(params, old(Abs()), Handle(h, Register)) && Inv(params, Abs())
      ensures sessions == old(sessions)[old(handlers[h].client) := h]
      ensures displaced.Some? <==> old(handlers[h].client in sessions)
      ensures displaced.Some? ==>
                && displaced.value != h && displaced.value < |handlers|
                && handlers[displaced.value].client == old(handlers[h].client)
                && Newest(old(Abs()), old(handlers[h].client)) == displaced
    {
      ghost var before := Abs();
      RegisterEffect(params, before, h);
      var c := handlers[h].client;
      displaced := if c in sessions then Some(sessions[c]) else None;
      sessions := sessions[c := h];
      log := log[c := LogOf(before, c) + [h]];
      handlers := handlers[h := handlers[h].(pc := if displaced.Some? then DisplaceCancel(displaced.value) else Listening(0))];
    }

    /** The loops of removeSession and shutdown: `for _, ln := range lns { ln.Close() }`. */
    method CloseListeners(lns: seq<nat>)
      modifies this`listeners
      ensures listeners == CloseFirst(old(listeners), lns, |lns|)
    {
      for k := 0 to |lns|
        invariant listeners == CloseFirst(old(listeners), lns, k)
      {
        if lns[k] < |listeners| {
          listeners := listeners[lns[k] := listeners[lns[k]].(open := false)];
        }
      }
    }

    /** removeSession: drops the registry entry if it is still this session's and closes the
      * session's listeners. */
    method RemoveSession(h: nat)
      requires h < |handlers| && handlers[h].pc.Removing? && mu.None?
      modifies this`handlers, this`listeners, this`sessions
      ensures Abs() == RemovalDoneState(old(Abs()), h)
      ensures var run := RemovalRun(h, |old(handlers[h].listeners)| + 1);
              ValidRun(params, old(Abs()), run) && Exec(params, old(Abs()), run) == Abs()
    {
      ghost var start := Abs();
      RemovalEnds(params, start, h);
      var c := handlers[h].client;
      if c in sessions && sessions[c] == h {
        sessions := sessions - {c};
      }
      CloseListeners(handlers[h].listeners);
      handlers := handlers[h := handlers[h].(pc := ClosingMux)];
    }

    /** old.shutdown(), called by the successor h right after replaceSession. */
    method Shutdown(h: nat)
      requires CanShutDown(Abs(), h)
      modifies this`handlers, this`listeners
      ensures var prior := old(handlers[h].pc.prior);
              var n := |old(handlers[prior].listeners)|;
              Abs() == ShutDown(old(Abs()), h, Listening(0), true, true, n) && GotTo(params, old(Abs()), h, n + 4, Abs())
    {
      ghost var start := Abs();
      ShutdownEnds(params, start, h);
      var prior := handlers[h].pc.prior;
      handlers := handlers[prior := handlers[prior].(cancelled := true)];              // ss.cancel()
      CloseListeners(handlers[prior].listeners);
      handlers := handlers[prior := handlers[prior].(muxClosed := true)];              // ss.yam.Close()
      handlers := handlers[h := handlers[h].(pc := Listening(0))];
      assert handlers == ShutDown(start, h, Listening(0), true, true, |start.handlers[prior].listeners|).handlers;
    }
  }
}
