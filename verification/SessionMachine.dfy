/** The goroutines of internal/tunnel/server.go as a step system.
  *
  * One program counter per handleControl goroutine (which becomes its session's runSession) and
  * one per proxyUser goroutine. Everything between two shared-memory accesses is one step, and
  * any goroutine may take the next one. Handlers, listeners and proxies are named by their
  * position in the order of creation. */
module SessionMachine {
  import opened Bytes

  const MAX_PENDING_HANDSHAKES: nat := 64

  /** What the machine reads from the Server struct and never changes: the listen address of every
    * allowed service, by client and name, the stream limit, and the control address that Run keeps
    * bound. `admits` is cidrAllowed for a client's service and the address of a user. `clash` is the operating system's: it may refuse to bind addresses that differ as text,
    * such as a wildcard and a specific one on the same port. */
  datatype Params = Params(allowed: map<Str, map<Str, Str>>, maxStreams: nat, control: Str, clash: (Str, Str) -> bool,
                           admits: (Str, Str, Str) -> bool)

  /** The two addresses cannot both be bound. */
  predicate Conflict(p: Params, a: Str, b: Str)
  {
    a == b || p.clash(a, b) || p.clash(b, a)
  }

  /** A lookup in s.allowed[client]; a missing client is an empty allowlist. */
  function Lookup(p: Params, client: Str, name: Str): (r: Option<Str>)
  {
    if client in p.allowed && name in p.allowed[client] then Some(p.allowed[client][name]) else None
  }

  /** Where a handler is. */
  datatype Pc =
    | Handshaking                                   // TLS, exporter, runHandshake
    | SettingUp                                     // authenticated; reply and mux under way
    | TokenReturned                                 // token given back, semHeld not yet cleared
    | Registering                                   // before replaceSession
    | DisplaceCancel(prior: nat)                      // old.shutdown(): before ss.cancel()
    | DisplaceSnapshot(prior: nat)                    // before ranging over ss.listeners
    | DisplaceClose(prior: nat, lns: seq<nat>, k: nat) // closing the listeners seen there
    | DisplaceMux(prior: nat)                         // before ss.yam.Close()
    | Listening(i: nat)                             // at requested[i]
    | Bound(i: nat, l: nat)                         // net.Listen returned l
    | Appended(i: nat, l: nat)                      // l is in sess.listeners
    | Serving                                       // <-yam.CloseChan()
    | Removing                                      // removeSession, before the lock
    | Closing(k: nat)                               // lock held, closing ns.listeners[k..]
    | ClosingMux                                    // deferred yam.Close()
    | CancellingSelf                                // deferred cancel()
    | Exiting                                       // deferred token check of handleControl
    | Done

  /** A handleControl goroutine and, from Registering on, its serverSession. `releases` counts
    * its receives from handshakeSem. */
  datatype Handler = Handler(
    pc: Pc, semHeld: bool, client: Str, requested: seq<Str>,
    listeners: seq<nat>, cancelled: bool, muxClosed: bool, slots: nat, releases: nat)

  /** A service listener; `at` is the position in its session's requested list, and `watched`
    * says that its acceptUsers goroutine has started. */
  datatype Listener = Listener(owner: nat, at: nat, service: Str, addr: Str, open: bool, watched: bool)

  datatype ProxyPc = Arrived | Holding | StreamOpen | Relaying | Releasing | Finished

  /** A user who connected from this address. */
  datatype Proxy = Proxy(owner: nat, service: Str, user: Str, pc: ProxyPc)

  /** An Open header that was written to a stream of a session, on behalf of a user. */
  datatype Header = Header(owner: nat, service: Str, user: Str)

  /** `log` is history: the sessions of each client in the order of their registration. */
  datatype State = State(
    handlers: seq<Handler>, tokens: nat, registry: map<Str, nat>, mu: Option<nat>,
    listeners: seq<Listener>, proxies: seq<Proxy>, headers: seq<Header>,
    ctxDone: bool, log: map<Str, seq<nat>>)

  const INIT: State := State([], 0, map[], None, [], [], [], false, map[])

  const NEW_HANDLER: Handler := Handler(Handshaking, true, [], [], [], false, false, 0, 0)

  function LogOf(s: State, client: Str): (r: seq<nat>)
  {
    if client in s.log then s.log[client] else []
  }

  // ------------------------------------------------------------ elementary updates

  function Put(s: State, h: nat, x: Handler): (r: State)
    requires h < |s.handlers|
  {
    s.(handlers := s.handlers[h := x])
  }

  function CloseListener(s: State, l: nat): (r: State)
  {
    if l < |s.listeners| then s.(listeners := s.listeners[l := s.listeners[l].(open := false)]) else s
  }

  /** acceptUsers starts on a listener. */
  function Watch(s: State, l: nat): (r: State)
  {
    if l < |s.listeners| then s.(listeners := s.listeners[l := s.listeners[l].(watched := true)]) else s
  }

  function SetCancelled(s: State, h: nat): (r: State)
  {
    if h < |s.handlers| then Put(s, h, s.handlers[h].(cancelled := true)) else s
  }

  function SetMuxClosed(s: State, h: nat): (r: State)
  {
    if h < |s.handlers| then Put(s, h, s.handlers[h].(muxClosed := true)) else s
  }

  function SetSlots(s: State, h: nat, n: nat): (r: State)
    requires h < |s.handlers|
  {
    Put(s, h, s.handlers[h].(slots := n))
  }

  function SetProxy(s: State, x: nat, pc: ProxyPc): (r: State)
    requires x < |s.proxies|
  {
    s.(proxies := s.proxies[x := s.proxies[x].(pc := pc)])
  }

  function Goto(s: State, h: nat, pc: Pc): (r: State)
    requires h < |s.handlers|
  {
    Put(s, h, s.handlers[h].(pc := pc))
  }

  // ------------------------------------------------------------ steps

  /** What a handler can do to itself alone. */
  datatype Move =
    | HandshakeFails
    | HandshakeOk(client: Str, requested: seq<Str>)
    | SetupFails                  // the reply or mux.Server failed
    | ClearHeld
    | SkipUnknown
    | BindFails
    | Append
    | LoopEnds
    | MuxDies                     // peer gone, keep-alive, network
    | SeeClosed
    | CloseMux
    | CancelSelf

  /** What a handler can do next. */
  datatype Act =
    | Private(move: Move)
    | ReleaseToken
    | Register
    | Displace
    | BindOk
    | Spawn
    | LockRegistry
    | CloseOwn
    | Exit

  /** What a proxyUser goroutine can do next. */
  datatype Deed = TakeSlot | StreamFails | StreamOk | HeaderFails | HeaderOk | RelayEnds | ReleaseSlot

  datatype Step =
    | ConnArrives                 // Run: accept and select
    | CtxDone                     // the server is told to stop
    | Handle(h: nat, act: Act)
    | CloserFires(l: nat)         // acceptUsers: <-ctx.Done(); ln.Close()
    | UserArrives(l: nat, user: Str)  // acceptUsers: accept, cidrAllowed
    | Serve(x: nat, deed: Deed)

  /** The address a handler in its listen loop is about to bind. */
  function Wanted(p: Params, x: Handler): (r: Option<Str>)
  {
    if InLoop(x) then Lookup(p, x.client, x.requested[x.pc.i]) else None
  }

  /** An open listener stands in the way of the address. */
  predicate Blocks(p: Params, y: Listener, addr: Str)
  {
    y.open && Conflict(p, y.addr, addr)
  }

  /** Neither an open service listener nor, until the server is told to stop, the control listener
    * stands in the way. */
  predicate AddrFree(p: Params, s: State, addr: Str)
  {
    && (s.ctxDone || !Conflict(p, p.control, addr))
    && (forall l :: 0 <= l < |s.listeners| ==> !Blocks(p, s.listeners[l], addr))
  }

  predicate IsDisplacing(pc: Pc)
  {
    pc.DisplaceCancel? || pc.DisplaceSnapshot? || pc.DisplaceClose? || pc.DisplaceMux?
  }

  predicate InLoop(x: Handler)
  {
    x.pc.Listening? && x.pc.i < |x.requested|
  }

  predicate MoveEnabled(p: Params, x: Handler, move: Move)
  {
    match move
    case HandshakeFails => x.pc.Handshaking?
    case HandshakeOk(_, _) => x.pc.Handshaking?
    case SetupFails => x.pc.SettingUp?
    case ClearHeld => x.pc.TokenReturned?
    case SkipUnknown => InLoop(x) && Wanted(p, x).None?
    case BindFails => Wanted(p, x).Some?
    case Append => x.pc.Bound?
    case LoopEnds => x.pc.Listening? && !InLoop(x)
    case MuxDies => true
    case SeeClosed => x.pc.Serving? && x.muxClosed
    case CloseMux => x.pc.ClosingMux?
    case CancelSelf => x.pc.CancellingSelf?
  }

  function Moved(p: Params, x: Handler, move: Move): (y: Handler)
    requires MoveEnabled(p, x, move)
  {
    match move
    case HandshakeFails => x.(pc := Exiting)
    case HandshakeOk(client, requested) => x.(pc := SettingUp, client := client, requested := requested)
    case SetupFails => x.(pc := Exiting)
    case ClearHeld => x.(pc := Registering, semHeld := false)
    case SkipUnknown => x.(pc := Listening(x.pc.i + 1))
    case BindFails => x.(pc := Removing)
    case Append => x.(pc := Appended(x.pc.i, x.pc.l), listeners := x.listeners + [x.pc.l])
    case LoopEnds => x.(pc := Serving)
    case MuxDies => x.(muxClosed := true)
    case SeeClosed => x.(pc := Removing)
    case CloseMux => x.(pc := CancellingSelf, muxClosed := true)
    case CancelSelf => x.(pc := Exiting, cancelled := true)
  }

  predicate ActEnabled(p: Params, s: State, h: nat, act: Act)
    requires h < |s.handlers|
  {
    var x := s.handlers[h];
    match act
    case Private(move) => MoveEnabled(p, x, move)
    case ReleaseToken => x.pc.SettingUp? && s.tokens > 0       // a receive blocks on an empty channel
    case Register => x.pc.Registering? && s.mu.None?
    case Displace => IsDisplacing(x.pc)
    case BindOk => Wanted(p, x).Some? && AddrFree(p, s, Wanted(p, x).value)
    case Spawn => x.pc.Appended?
    case LockRegistry => x.pc.Removing? && s.mu.None?
    case CloseOwn => x.pc.Closing?
    case Exit => x.pc.Exiting? && (x.semHeld ==> s.tokens > 0)
  }

  function ActApply(p: Params, s: State, h: nat, act: Act): (r: State)
    requires h < |s.handlers| && ActEnabled(p, s, h, act)
  {
    match act
    case Private(move) => Put(s, h, Moved(p, s.handlers[h], move))
    case ReleaseToken => Release(s, h, TokenReturned)
    case Register => ReplaceSession(s, h)
    case Displace => DisplaceStep(s, h)
    case BindOk => Bind(p, s, h)
    case Spawn => Goto(Watch(s, s.handlers[h].pc.l), h, Listening(s.handlers[h].pc.i + 1))
    case LockRegistry => Unregister(s, h)
    case CloseOwn => CloseOwnStep(s, h)
    case Exit => if s.handlers[h].semHeld then Release(s, h, Done) else Goto(s, h, Done)
  }

  predicate DeedEnabled(s: State, x: nat, deed: Deed)
    requires x < |s.proxies|
  {
    var y := s.proxies[x];
    y.owner < |s.handlers| &&
    match deed
    case TakeSlot => y.pc.Arrived?
    case StreamFails => y.pc.Holding?
    case StreamOk => y.pc.Holding? && !s.handlers[y.owner].muxClosed
    case HeaderFails => y.pc.StreamOpen?
    case HeaderOk => y.pc.StreamOpen?
    case RelayEnds => y.pc.Relaying?
    case ReleaseSlot => y.pc.Releasing? && s.handlers[y.owner].slots > 0
  }

  function DeedApply(p: Params, s: State, x: nat, deed: Deed): (r: State)
    requires x < |s.proxies| && DeedEnabled(s, x, deed)
  {
    var y := s.proxies[x];
    var slots := s.handlers[y.owner].slots;
    match deed
    case TakeSlot =>
      if slots < p.maxStreams then SetProxy(SetSlots(s, y.owner, slots + 1), x, Holding) else SetProxy(s, x, Finished)
    case StreamFails => SetProxy(s, x, Releasing)
    case StreamOk => SetProxy(s, x, StreamOpen)
    case HeaderFails => SetProxy(s, x, Releasing)
    case HeaderOk => SetProxy(s, x, Relaying).(headers := s.headers + [Header(y.owner, y.service, y.user)])
    case RelayEnds => SetProxy(s, x, Releasing)
    case ReleaseSlot => SetProxy(SetSlots(s, y.owner, slots - 1), x, Finished)
  }

  predicate Enabled(p: Params, s: State, step: Step)
  {
    match step
    case ConnArrives => true
    case CtxDone => true
    case Handle(h, act) => h < |s.handlers| && ActEnabled(p, s, h, act)
    case CloserFires(l) =>
      && l < |s.listeners| && s.listeners[l].watched && s.listeners[l].owner < |s.handlers|
      && (s.ctxDone || s.handlers[s.listeners[l].owner].cancelled)
    case UserArrives(l, _) =>
      l < |s.listeners| && s.listeners[l].watched && s.listeners[l].open && s.listeners[l].owner < |s.handlers|
    case Serve(x, deed) => x < |s.proxies| && DeedEnabled(s, x, deed)
  }

  function Apply(p: Params, s: State, step: Step): (r: State)
    requires Enabled(p, s, step)
  {
    match step
    case ConnArrives =>
      if s.tokens < MAX_PENDING_HANDSHAKES
      then s.(tokens := s.tokens + 1, handlers := s.handlers + [NEW_HANDLER])
      else s
    case CtxDone => s.(ctxDone := true)
    case Handle(h, act) => ActApply(p, s, h, act)
    case CloserFires(l) => CloseListener(s, l)
    case UserArrives(l, user) =>
      var y := s.listeners[l];
      if p.admits(s.handlers[y.owner].client, y.service, user)
      then s.(proxies := s.proxies + [Proxy(y.owner, y.service, user, Arrived)])
      else s
    case Serve(x, deed) => DeedApply(p, s, x, deed)
  }

  /** A receive from handshakeSem. */
  function Release(s: State, h: nat, pc: Pc): (r: State)
    requires h < |s.handlers| && s.tokens > 0
  {
    var x := s.handlers[h];
    s.(tokens := s.tokens - 1, handlers := s.handlers[h := x.(pc := pc, releases := x.releases + 1)])
  }

  /** replaceSession, atomic under the mutex. */
  function ReplaceSession(s: State, h: nat): (r: State)
    requires h < |s.handlers|
  {
    var c := s.handlers[h].client;
    var pc := if c in s.registry then DisplaceCancel(s.registry[c]) else Listening(0);
    Goto(s, h, pc).(registry := s.registry[c := h], log := s.log[c := LogOf(s, c) + [h]])
  }

  /** One statement of old.shutdown(), run by the successor h. */
  function DisplaceStep(s: State, h: nat): (r: State)
    requires h < |s.handlers| && IsDisplacing(s.handlers[h].pc)
  {
    match s.handlers[h].pc
    case DisplaceCancel(prior) => Goto(SetCancelled(s, prior), h, DisplaceSnapshot(prior))
    case DisplaceSnapshot(prior) =>
      Goto(s, h, DisplaceClose(prior, if prior < |s.handlers| then s.handlers[prior].listeners else [], 0))
    case DisplaceClose(prior, lns, k) =>
      if k < |lns| then Goto(CloseListener(s, lns[k]), h, DisplaceClose(prior, lns, k + 1))
      else Goto(s, h, DisplaceMux(prior))
    case DisplaceMux(prior) => Goto(SetMuxClosed(s, prior), h, Listening(0))
  }

  /** net.Listen succeeds. */
  function Bind(p: Params, s: State, h: nat): (r: State)
    requires h < |s.handlers| && Wanted(p, s.handlers[h]).Some?
  {
    var x := s.handlers[h];
    var ln := Listener(h, x.pc.i, x.requested[x.pc.i], Wanted(p, x).value, true, false);
    Goto(s, h, Bound(x.pc.i, |s.listeners|)).(listeners := s.listeners + [ln])
  }

  /** removeSession takes the lock and drops the registry entry if it is still its own. */
  function Unregister(s: State, h: nat): (r: State)
    requires h < |s.handlers|
  {
    var c := s.handlers[h].client;
    Goto(s, h, Closing(0)).(mu := Some(h),
                            registry := if c in s.registry && s.registry[c] == h then s.registry - {c} else s.registry)
  }

  /** removeSession closes its next listener, or unlocks and returns. */
  function CloseOwnStep(s: State, h: nat): (r: State)
    requires h < |s.handlers| && s.handlers[h].pc.Closing?
  {
    var x := s.handlers[h];
    if x.pc.k < |x.listeners| then Goto(CloseListener(s, x.listeners[x.pc.k]), h, Closing(x.pc.k + 1))
    else Goto(s, h, ClosingMux).(mu := None)
  }

  // ------------------------------------------------------------ what compound steps touch

  /** Everything but handlers and listeners is the same. */
  ghost predicate SameShared(s: State, t: State)
  {
    && s.tokens == t.tokens && s.registry == t.registry && s.mu == t.mu && s.log == t.log
    && s.proxies == t.proxies && s.headers == t.headers && s.ctxDone == t.ctxDone
  }

  /** Only the place and the two flags of a handler may differ. */
  ghost predicate SameButFlags(x: Handler, y: Handler)
  {
    && x.semHeld == y.semHeld && x.releases == y.releases && x.slots == y.slots
    && x.client == y.client && x.requested == y.requested && x.listeners == y.listeners
  }

  /** The effect that every statement of old.shutdown() has: it moves its caller on and may set
    * flags of other handlers. */
  ghost predicate Displaced(s: State, t: State, h: nat)
    requires h < |s.handlers|
  {
    && SameShared(s, t)
    && |t.handlers| == |s.handlers|
    && (IsDisplacing(t.handlers[h].pc) || t.handlers[h].pc == Listening(0))
    && (forall i :: 0 <= i < |s.handlers| ==>
          SameButFlags(s.handlers[i], t.handlers[i]) && (i != h ==> t.handlers[i].pc == s.handlers[i].pc))
  }

  lemma CancelThenGoto(s: State, h: nat, prior: nat, pc: Pc)
    requires h < |s.handlers| && IsDisplacing(pc)
    ensures Displaced(s, Goto(SetCancelled(s, prior), h, pc), h)
  {}

  lemma MuxThenGoto(s: State, h: nat, prior: nat, pc: Pc)
    requires h < |s.handlers| && pc == Listening(0)
    ensures Displaced(s, Goto(SetMuxClosed(s, prior), h, pc), h)
  {}

  lemma CloseThenGoto(s: State, h: nat, l: nat, pc: Pc)
    requires h < |s.handlers| && IsDisplacing(pc)
    ensures Displaced(s, Goto(CloseListener(s, l), h, pc), h)
  {}

  lemma DisplaceEffect(s: State, h: nat)
    requires h < |s.handlers| && IsDisplacing(s.handlers[h].pc)
    ensures Displaced(s, DisplaceStep(s, h), h)
  {
    match s.handlers[h].pc
    case DisplaceCancel(prior) => CancelThenGoto(s, h, prior, DisplaceSnapshot(prior));
    case DisplaceSnapshot(prior) =>
    case DisplaceClose(prior, lns, k) =>
      if k < |lns| {
        CloseThenGoto(s, h, lns[k], DisplaceClose(prior, lns, k + 1));
      }
    case DisplaceMux(prior) => MuxThenGoto(s, h, prior, Listening(0));
  }

  /** Acts that touch shared state but change no handler except for the place of their own. */
  predicate MovesOnlyPc(act: Act)
  {
    act.Register? || act.BindOk? || act.Spawn? || act.LockRegistry? || act.CloseOwn?
  }

  /** The place such an act leads to. */
  ghost predicate Leads(act: Act, x: Pc, y: Pc)
  {
    match act
    case Register => x.Registering? && (y.DisplaceCancel? || y == Listening(0))
    case BindOk => x.Listening? && y.Bound? && y.i == x.i
    case Spawn => x.Appended? && y == Listening(x.i + 1)
    case LockRegistry => x.Removing? && y == Closing(0)
    case CloseOwn => x.Closing? && (y == Closing(x.k + 1) || y == ClosingMux)
    case _ => true
  }

  ghost predicate PcMoved(s: State, t: State, h: nat)
    requires h < |s.handlers|
  {
    && |t.handlers| == |s.handlers|
    && t.handlers == s.handlers[h := s.handlers[h].(pc := t.handlers[h].pc)]
    && t.tokens == s.tokens && t.proxies == s.proxies && t.headers == s.headers && t.ctxDone == s.ctxDone
  }

  lemma GotoMovesPc(s: State, h: nat, pc: Pc, l: nat)
    requires h < |s.handlers|
    ensures PcMoved(s, Goto(s, h, pc), h) && PcMoved(s, Goto(CloseListener(s, l), h, pc), h)
    ensures PcMoved(s, Goto(Watch(s, l), h, pc), h)
  {}

  lemma PcEffect(p: Params, s: State, h: nat, act: Act)
    requires h < |s.handlers| && ActEnabled(p, s, h, act) && MovesOnlyPc(act)
    ensures var t := ActApply(p, s, h, act);
            PcMoved(s, t, h) && Leads(act, s.handlers[h].pc, t.handlers[h].pc)
  {
    var x := s.handlers[h];
    match act
    case Register =>
    case BindOk =>
    case Spawn => GotoMovesPc(s, h, Listening(x.pc.i + 1), x.pc.l);
    case LockRegistry =>
    case CloseOwn =>
      if x.pc.k < |x.listeners| {
        GotoMovesPc(s, h, Closing(x.pc.k + 1), x.listeners[x.pc.k]);
      }
  }

  lemma DeedKeepsHandlers(p: Params, s: State, x: nat, deed: Deed)
    requires x < |s.proxies| && DeedEnabled(s, x, deed)
    ensures var t := DeedApply(p, s, x, deed);
            && t == s.(handlers := t.handlers, proxies := t.proxies, headers := t.headers)
            && |t.handlers| == |s.handlers|
            && forall i :: 0 <= i < |s.handlers| ==> t.handlers[i] == s.handlers[i].(slots := t.handlers[i].slots)
  {}

  // ------------------------------------------------------------ runs

  /** A finite run from s: every step is enabled where it is taken. */
  predicate ValidRun(p: Params, s: State, steps: seq<Step>)
    decreases |steps|
  {
    steps == [] || (Enabled(p, s, steps[0]) && ValidRun(p, Apply(p, s, steps[0]), steps[1..]))
  }

  function Exec(p: Params, s: State, steps: seq<Step>): (r: State)
    requires ValidRun(p, s, steps)
    decreases |steps|
  {
    if steps == [] then s else Exec(p, Apply(p, s, steps[0]), steps[1..])
  }

  ghost predicate Reachable(p: Params, s: State)
  {
    exists steps :: ValidRun(p, INIT, steps) && Exec(p, INIT, steps) == s
  }

  lemma {:induction false} RunExtends(p: Params, s: State, steps: seq<Step>, step: Step)
    requires ValidRun(p, s, steps) && Enabled(p, Exec(p, s, steps), step)
    ensures ValidRun(p, s, steps + [step])
    ensures Exec(p, s, steps + [step]) == Apply(p, Exec(p, s, steps), step)
    decreases |steps|
  {
    if steps == [] {
      assert [step][1..] == [] && steps + [step] == [step];
    } else {
      RunExtends(p, Apply(p, s, steps[0]), steps[1..], step);
      assert (steps + [step])[1..] == steps[1..] + [step];
    }
  }

  lemma ReachStep(p: Params, s: State, step: Step)
    requires Reachable(p, s) && Enabled(p, s, step)
    ensures Reachable(p, Apply(p, s, step))
  {
    var steps :| ValidRun(p, INIT, steps) && Exec(p, INIT, steps) == s;
    RunExtends(p, INIT, steps, step);
  }

}
