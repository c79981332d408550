/** Runs that end in a collision: the conditions of Collisions cannot be weakened. */
module CollisionRuns {
  import opened Bytes
  import opened SessionMachine
  import opened SessionInvariants
  import opened Handover
  import opened Collisions

  ghost predicate Reaches(p: Params, s: State, t: State)
  {
    exists steps :: ValidRun(p, s, steps) && Exec(p, s, steps) == t
  }

  lemma ReachesSelf(p: Params, s: State)
    ensures Reaches(p, s, s)
  {
    assert ValidRun(p, s, []) && Exec(p, s, []) == s;
  }

  lemma Go(p: Params, s0: State, s: State, step: Step)
    requires Reaches(p, s0, s) && Inv(p, s) && Enabled(p, s, step)
    ensures Reaches(p, s0, Apply(p, s, step)) && Inv(p, Apply(p, s, step))
  {
    var steps :| ValidRun(p, s0, steps) && Exec(p, s0, steps) == s;
    RunExtends(p, s0, steps, step);
    InvStep(p, s, step);
  }

  /** Session x of the client is about to bind an address that a listener of another session of the
    * client is in the way of. */
  ghost predicate Collides(p: Params, s: State, client: Str, x: nat, l: nat)
  {
    && x < |s.handlers| && s.handlers[x].client == client && Wanted(p, s.handlers[x]).Some?
    && l < |s.listeners| && s.listeners[l].owner < |s.handlers| && s.listeners[l].owner != x
    && s.handlers[s.listeners[l].owner].client == client
    && Blocks(p, s.listeners[l], Wanted(p, s.handlers[x]).value)
  }

  ghost predicate Collision(p: Params, s: State, client: Str)
  {
    exists x: nat, l: nat :: Collides(p, s, client, x, l)
  }

  /** Clear runs have none of these. */
  lemma ClearNeverCollides(p: Params, s: State, client: Str)
    requires ClearlyReached(p, s) && ServicesApart(p)
    ensures !Collision(p, s, client)
  {
    if x: nat, l: nat :| Collides(p, s, client, x, l) {
      PairReached(p, s);
      assert ListenerOk(p, s, l);
      BlockedBy(p, s, x, l);
    }
  }

  ghost predicate Apart(p: Params)
  {
    ServicesApart(p) && ControlApart(p)
  }

  ghost predicate AllDistinct(s: State)
  {
    forall i :: 0 <= i < |s.handlers| ==> NoDup(s.handlers[i].requested)
  }

  /** Only session x has moved. */
  ghost predicate Keeps(s: State, t: State, x: nat)
    requires x < |s.handlers|
  {
    && |t.handlers| == |s.handlers| && |t.listeners| >= |s.listeners|
    && t.handlers[x].client == s.handlers[x].client && t.handlers[x].requested == s.handlers[x].requested
    && (forall i :: 0 <= i < |s.handlers| && i != x ==>
          SameButFlags(s.handlers[i], t.handlers[i]) && t.handlers[i].pc == s.handlers[i].pc)
    && (forall l :: 0 <= l < |s.listeners| ==> SameListener(s.listeners[l], t.listeners[l]))
  }

  ghost predicate KeepsOpen(s: State, t: State)
    requires |t.listeners| >= |s.listeners|
  {
    forall l :: 0 <= l < |s.listeners| && s.listeners[l].open ==> t.listeners[l].open
  }

  lemma KeepsTrans(s: State, t: State, u: State, x: nat)
    requires x < |s.handlers| && Keeps(s, t, x) && Keeps(t, u, x)
    ensures Keeps(s, u, x)
  {
    forall l | 0 <= l < |s.listeners| ensures SameListener(s.listeners[l], u.listeners[l]) {
      assert SameListener(s.listeners[l], t.listeners[l]) && SameListener(t.listeners[l], u.listeners[l]);
    }
    forall i | 0 <= i < |s.handlers| && i != x
      ensures SameButFlags(s.handlers[i], u.handlers[i]) && u.handlers[i].pc == s.handlers[i].pc
    {
      assert SameButFlags(s.handlers[i], t.handlers[i]) && SameButFlags(t.handlers[i], u.handlers[i]);
    }
  }

  lemma KeepsDistinct(s: State, t: State, x: nat)
    requires x < |s.handlers| && Keeps(s, t, x) && AllDistinct(s)
    ensures AllDistinct(t)
  {
    forall i | 0 <= i < |t.handlers| ensures NoDup(t.handlers[i].requested) {
      assert NoDup(s.handlers[i].requested);
      assert i != x ==> SameButFlags(s.handlers[i], t.handlers[i]);
    }
  }

  // ------------------------------------------------------------ a session goes through its loop

  /** With addresses apart, only a listener for the same name can be in the way of a bind. */
  lemma BlockedCollides(p: Params, s: State, x: nat)
    requires Inv(p, s) && Apart(p) && AllDistinct(s) && x < |s.handlers| && Wanted(p, s.handlers[x]).Some?
    requires !AddrFree(p, s, Wanted(p, s.handlers[x]).value)
    ensures Collision(p, s, s.handlers[x].client)
  {
    var addr := Wanted(p, s.handlers[x]).value;
    var l :| 0 <= l < |s.listeners| && Blocks(p, s.listeners[l], addr);
    assert ListenerOk(p, s, l) && NoDup(s.handlers[x].requested);
    assert Collides(p, s, s.handlers[x].client, x, l);
  }

  /** Only session x has moved, and nothing was closed. */
  ghost predicate Advanced(s: State, t: State, x: nat)
    requires x < |s.handlers|
  {
    Keeps(s, t, x) && KeepsOpen(s, t)
  }

  lemma AdvancedTrans(s: State, t: State, u: State, x: nat)
    requires x < |s.handlers| && Advanced(s, t, x) && Advanced(t, u, x)
    ensures Advanced(s, u, x)
  {
    KeepsTrans(s, t, u, x);
  }

  lemma MoveAdvances(p: Params, s: State, x: nat, move: Move)
    requires x < |s.handlers| && MoveEnabled(p, s.handlers[x], move) && !move.HandshakeOk?
    ensures Advanced(s, Put(s, x, Moved(p, s.handlers[x], move)), x)
  {}

  lemma SpawnAdvances(s: State, x: nat)
    requires x < |s.handlers| && s.handlers[x].pc.Appended?
    ensures Advanced(s, Goto(Watch(s, s.handlers[x].pc.l), x, Listening(s.handlers[x].pc.i + 1)), x)
  {}

  lemma BindAdvances(p: Params, s: State, x: nat)
    requires x < |s.handlers| && Wanted(p, s.handlers[x]).Some?
    ensures Advanced(s, Bind(p, s, x), x)
    ensures Holds(Bind(p, s, x), |s.listeners|, x, s.handlers[x].requested[s.handlers[x].pc.i])
  {}

  lemma Skips(p: Params, s0: State, s: State, x: nat) returns (t: State)
    requires Reaches(p, s0, s) && Inv(p, s) && x < |s.handlers| && InLoop(s.handlers[x]) && Wanted(p, s.handlers[x]).None?
    ensures Reaches(p, s0, t) && Inv(p, t) && Advanced(s, t, x) && t.handlers[x].pc == Listening(s.handlers[x].pc.i + 1)
  {
    t := Apply(p, s, Handle(x, Private(SkipUnknown)));
    Go(p, s0, s, Handle(x, Private(SkipUnknown)));
    MoveAdvances(p, s, x, SkipUnknown);
  }

  lemma Binds(p: Params, s0: State, s: State, x: nat) returns (t: State)
    requires Reaches(p, s0, s) && Inv(p, s) && x < |s.handlers| && Wanted(p, s.handlers[x]).Some?
    requires AddrFree(p, s, Wanted(p, s.handlers[x]).value)
    ensures Reaches(p, s0, t) && Inv(p, t) && Advanced(s, t, x)
    ensures var i := s.handlers[x].pc.i;
            t.handlers[x].pc == Bound(i, |s.listeners|) && Holds(t, |s.listeners|, x, s.handlers[x].requested[i])
  {
    t := Apply(p, s, Handle(x, BindOk));
    Go(p, s0, s, Handle(x, BindOk));
    BindAdvances(p, s, x);
  }

  lemma Lists(p: Params, s0: State, s: State, x: nat) returns (t: State)
    requires Reaches(p, s0, s) && Inv(p, s) && x < |s.handlers| && s.handlers[x].pc.Bound?
    ensures Reaches(p, s0, t) && Inv(p, t) && Advanced(s, t, x)
    ensures t.handlers[x].pc == Appended(s.handlers[x].pc.i, s.handlers[x].pc.l)
  {
    t := Apply(p, s, Handle(x, Private(Append)));
    Go(p, s0, s, Handle(x, Private(Append)));
    MoveAdvances(p, s, x, Append);
  }

  lemma Spawns(p: Params, s0: State, s: State, x: nat) returns (t: State)
    requires Reaches(p, s0, s) && Inv(p, s) && x < |s.handlers| && s.handlers[x].pc.Appended?
    ensures Reaches(p, s0, t) && Inv(p, t) && Advanced(s, t, x) && t.handlers[x].pc == Listening(s.handlers[x].pc.i + 1)
  {
    t := Apply(p, s, Handle(x, Spawn));
    Go(p, s0, s, Handle(x, Spawn));
    SpawnAdvances(s, x);
    assert t.handlers[x].pc == Listening(s.handlers[x].pc.i + 1);
  }

  /** A session comes to its name number i, unless it collides on the way. */
  lemma {:induction false} LoopsTo(p: Params, s0: State, s: State, x: nat, i: nat) returns (t: State)
    requires Reaches(p, s0, s) && Inv(p, s) && Apart(p) && AllDistinct(s) && x < |s.handlers|
    requires s.handlers[x].pc.Listening? && s.handlers[x].pc.i <= i < |s.handlers[x].requested|
    ensures Reaches(p, s0, t) && Inv(p, t)
    ensures Advanced(s, t, x) && (Collision(p, t, s.handlers[x].client) || t.handlers[x].pc == Listening(i))
    decreases i - s.handlers[x].pc.i
  {
    if s.handlers[x].pc.i == i {
      return s;
    }
    var u: State;
    if Wanted(p, s.handlers[x]).None? {
      u := Skips(p, s0, s, x);
    } else if !AddrFree(p, s, Wanted(p, s.handlers[x]).value) {
      BlockedCollides(p, s, x);
      return s;
    } else {
      u := BindsOne(p, s0, s, x);
    }
    KeepsDistinct(s, u, x);
    t := LoopsTo(p, s0, u, x, i);
    AdvancedTrans(s, u, t, x);
  }

  lemma BindsOne(p: Params, s0: State, s: State, x: nat) returns (t: State)
    requires Reaches(p, s0, s) && Inv(p, s) && x < |s.handlers| && Wanted(p, s.handlers[x]).Some?
    requires AddrFree(p, s, Wanted(p, s.handlers[x]).value)
    ensures Reaches(p, s0, t) && Inv(p, t) && Advanced(s, t, x)
    ensures t.handlers[x].pc == Listening(s.handlers[x].pc.i + 1)
  {
    var u := Binds(p, s0, s, x);
    t := ListsAndSpawns(p, s0, u, x);
    AdvancedTrans(s, u, t, x);
  }

  lemma ListsAndSpawns(p: Params, s0: State, s: State, x: nat) returns (t: State)
    requires Reaches(p, s0, s) && Inv(p, s) && x < |s.handlers| && s.handlers[x].pc.Bound?
    ensures Reaches(p, s0, t) && Inv(p, t) && Advanced(s, t, x)
    ensures t.handlers[x].pc == Listening(s.handlers[x].pc.i + 1)
  {
    var u := Lists(p, s0, s, x);
    t := Spawns(p, s0, u, x);
    AdvancedTrans(s, u, t, x);
  }

  /** The displacement by x will close this listener. */
  ghost predicate WillClose(s: State, x: nat, l: nat)
    requires x < |s.handlers|
  {
    var pc := s.handlers[x].pc;
    || ((pc.DisplaceCancel? || pc.DisplaceSnapshot?) && pc.prior < |s.handlers| && l in s.handlers[pc.prior].listeners)
    || ToClose(pc, l)
  }

  function Stage(pc: Pc): (n: nat)
  {
    match pc
    case DisplaceCancel(_) => 4
    case DisplaceSnapshot(_) => 3
    case DisplaceClose(_, _, _) => 2
    case DisplaceMux(_) => 1
    case _ => 0
  }

  function LeftToClose(pc: Pc): (n: nat)
  {
    if pc.DisplaceClose? && pc.k < |pc.lns| then |pc.lns| - pc.k else 0
  }

  lemma DisplaceKeeps(s: State, x: nat)
    requires x < |s.handlers| && IsDisplacing(s.handlers[x].pc)
    ensures var t := DisplaceStep(s, x);
            && Keeps(s, t, x) && |t.listeners| == |s.listeners|
            && (Stage(t.handlers[x].pc) < Stage(s.handlers[x].pc)
                || (Stage(t.handlers[x].pc) == Stage(s.handlers[x].pc)
                    && LeftToClose(t.handlers[x].pc) < LeftToClose(s.handlers[x].pc)))
  {
    DisplaceEffect(s, x);
    DisplaceCloses(s, x);
    assert SameButFlags(s.handlers[x], DisplaceStep(s, x).handlers[x]);
  }

  lemma DisplaceSpares(s: State, x: nat, l: nat)
    requires x < |s.handlers| && IsDisplacing(s.handlers[x].pc)
    requires l < |s.listeners| && s.listeners[l].open && !WillClose(s, x, l)
    ensures var t := DisplaceStep(s, x);
            && |t.handlers| == |s.handlers| && |t.listeners| == |s.listeners|
            && t.listeners[l].open && !WillClose(t, x, l)
  {
    DisplaceEffect(s, x);
    var pc, t := s.handlers[x].pc, DisplaceStep(s, x);
    if pc.DisplaceCancel? {
      assert pc.prior < |s.handlers| ==> SameButFlags(s.handlers[pc.prior], t.handlers[pc.prior]);
      assert t.handlers[x].pc == DisplaceSnapshot(pc.prior) && t.listeners == s.listeners;
    } else if pc.DisplaceClose? {
      CloseSpares(s, x, l);
    }
  }

  lemma CloseSpares(s: State, x: nat, l: nat)
    requires x < |s.handlers| && s.handlers[x].pc.DisplaceClose?
    requires l < |s.listeners| && s.listeners[l].open && !ToClose(s.handlers[x].pc, l)
    ensures var t := DisplaceStep(s, x);
            && |t.handlers| == |s.handlers| && |t.listeners| == |s.listeners|
            && t.listeners[l].open && !ToClose(t.handlers[x].pc, l) && !t.handlers[x].pc.DisplaceCancel?
            && !t.handlers[x].pc.DisplaceSnapshot?
  {
    var pc, t := s.handlers[x].pc, DisplaceStep(s, x);
    if pc.k < |pc.lns| {
      assert pc.lns[pc.k] != l;
      assert t.listeners == CloseListener(s, pc.lns[pc.k]).listeners;
      assert t.handlers[x].pc == DisplaceClose(pc.prior, pc.lns, pc.k + 1);
    } else {
      assert t.listeners == s.listeners;
    }
  }

  /** A displacing session finishes its displacement. */
  lemma {:induction false} Displaces(p: Params, s0: State, s: State, x: nat, l: nat) returns (t: State)
    requires Reaches(p, s0, s) && Inv(p, s) && x < |s.handlers| && IsDisplacing(s.handlers[x].pc)
    ensures Reaches(p, s0, t) && Inv(p, t) && Keeps(s, t, x) && t.handlers[x].pc == Listening(0)
    ensures l < |s.listeners| && s.listeners[l].open && !WillClose(s, x, l) ==> t.listeners[l].open
    decreases Stage(s.handlers[x].pc), LeftToClose(s.handlers[x].pc)
  {
    var u := Apply(p, s, Handle(x, Displace));
    Go(p, s0, s, Handle(x, Displace));
    DisplaceKeeps(s, x);
    DisplaceEffect(s, x);
    if l < |s.listeners| && s.listeners[l].open && !WillClose(s, x, l) {
      DisplaceSpares(s, x, l);
    }
    if IsDisplacing(u.handlers[x].pc) {
      t := Displaces(p, s0, u, x, l);
      KeepsTrans(s, u, t, x);
    } else {
      t := u;
    }
  }

  /** A session with names ahead of it comes to the next of them. */
  lemma ComesToLoop(p: Params, s0: State, s: State, x: nat) returns (t: State)
    requires Reaches(p, s0, s) && Inv(p, s) && x < |s.handlers| && Entered(s.handlers[x].pc)
    requires NextPos(s.handlers[x]) < |s.handlers[x].requested|
    ensures Reaches(p, s0, t) && Inv(p, t) && Keeps(s, t, x) && t.handlers[x].pc == Listening(NextPos(s.handlers[x]))
  {
    var pc := s.handlers[x].pc;
    if pc.Listening? {
      t := s;
    } else if pc.Bound? {
      t := ListsAndSpawns(p, s0, s, x);
    } else if pc.Appended? {
      t := Spawns(p, s0, s, x);
    } else {
      t := Displaces(p, s0, s, x, 0);
    }
  }

  // ------------------------------------------------------------ an unclear start can collide

  /** A session before its loop runs into a listener for one of its names. */
  lemma RunsInto(p: Params, s0: State, s: State, h: nat, l: nat, name: Str) returns (t: State)
    requires Reaches(p, s0, s) && Inv(p, s) && Apart(p) && AllDistinct(s) && h < |s.handlers|
    requires s.handlers[h].pc == Listening(0) && name in s.handlers[h].requested
    requires l < |s.listeners| && Holds(s, l, s.listeners[l].owner, name) && s.listeners[l].owner != h
    requires s.listeners[l].owner < |s.handlers| && s.handlers[s.listeners[l].owner].client == s.handlers[h].client
    ensures Reaches(p, s0, t) && Collision(p, t, s.handlers[h].client)
  {
    var i :| 0 <= i < |s.handlers[h].requested| && s.handlers[h].requested[i] == name;
    t := LoopsTo(p, s0, s, h, i);
    var c, g := s.handlers[h].client, s.listeners[l].owner;
    if !Collision(p, t, c) {
      assert ListenerOk(p, s, l) && SameListener(s.listeners[l], t.listeners[l]);
      assert SameButFlags(s.handlers[g], t.handlers[g]);
      assert Collides(p, t, c, h, l);
    }
  }

  /** An older session that still wants the name binds it first. */
  lemma OvertakenBy(p: Params, s0: State, s: State, h: nat, g: nat, name: Str) returns (t: State)
    requires Reaches(p, s0, s) && Inv(p, s) && Apart(p) && AllDistinct(s) && h < |s.handlers| && g < |s.handlers| && g != h
    requires s.handlers[h].pc == Listening(0) && name in s.handlers[h].requested
    requires s.handlers[g].client == s.handlers[h].client && Entered(s.handlers[g].pc) && Ahead(s.handlers[g], name)
    requires Lookup(p, s.handlers[g].client, name).Some?
    ensures Reaches(p, s0, t) && Collision(p, t, s.handlers[h].client)
  {
    var i :| NextPos(s.handlers[g]) <= i < |s.handlers[g].requested| && s.handlers[g].requested[i] == name;
    var u := ComesToLoop(p, s0, s, g);
    KeepsDistinct(s, u, g);
    t := LoopsTo(p, s0, u, g, i);
    if !Collision(p, t, s.handlers[g].client) {
      KeepsTrans(s, u, t, g);
      KeepsDistinct(s, t, g);
      assert SameButFlags(s.handlers[h], t.handlers[h]);
      t := Overtakes(p, s0, t, h, g, name);
    }
  }

  lemma Overtakes(p: Params, s0: State, s: State, h: nat, g: nat, name: Str) returns (t: State)
    requires Reaches(p, s0, s) && Inv(p, s) && Apart(p) && AllDistinct(s) && h < |s.handlers| && g < |s.handlers| && g != h
    requires s.handlers[h].pc == Listening(0) && name in s.handlers[h].requested
    requires s.handlers[g].client == s.handlers[h].client && Wanted(p, s.handlers[g]).Some?
    requires s.handlers[g].requested[s.handlers[g].pc.i] == name
    ensures Reaches(p, s0, t) && Collision(p, t, s.handlers[h].client)
  {
    if !AddrFree(p, s, Wanted(p, s.handlers[g]).value) {
      BlockedCollides(p, s, g);
      return s;
    }
    var u := Binds(p, s0, s, g);
    KeepsDistinct(s, u, g);
    assert SameButFlags(s.handlers[h], u.handlers[h]);
    t := RunsInto(p, s0, u, h, |s.listeners|, name);
  }

  /** The start of h, up to its loop. */
  lemma StartsLoop(p: Params, s: State, h: nat, act: Act, l: nat) returns (t: State)
    requires Inv(p, s) && Starts(p, s, Handle(h, act))
    ensures Reaches(p, s, t) && Inv(p, t) && Keeps(s, t, h) && t.handlers[h].pc == Listening(0)
    ensures l < |s.listeners| && s.listeners[l].open && !ToClose(ActApply(p, s, h, act).handlers[h].pc, l) ==>
              t.listeners[l].open
  {
    var u := Apply(p, s, Handle(h, act));
    ReachesSelf(p, s);
    Go(p, s, s, Handle(h, act));
    StartKeepsListeners(p, s, h, act);
    StartKeeps(p, s, h, act);
    if IsDisplacing(u.handlers[h].pc) {
      t := Displaces(p, s, u, h, l);
      KeepsTrans(s, u, t, h);
    } else {
      t := u;
    }
  }

  lemma StartKeeps(p: Params, s: State, h: nat, act: Act)
    requires Starts(p, s, Handle(h, act))
    ensures var t := ActApply(p, s, h, act);
            && Keeps(s, t, h)
            && (t.handlers[h].pc == Listening(0) || t.handlers[h].pc.DisplaceClose?)
  {
    if act.Displace? {
      DisplaceKeeps(s, h);
    }
  }

  /** From every reachable state in which a session starts although an older one has not let go of
    * what it asks for, some continuation makes two sessions of the client collide. */
  lemma UnclearCanCollide(p: Params, s: State, h: nat, act: Act)
    requires Reachable(p, s) && Apart(p) && AllDistinct(s) && Starts(p, s, Handle(h, act))
    requires !ClearStep(p, s, Handle(h, act))
    ensures exists t :: Reaches(p, s, t) && Collision(p, t, s.handlers[h].client)
  {
    InvReachable(p, s);
    var g, name, l := WhyUnclear(p, s, h, act);
    var t := StartsLoop(p, s, h, act, l);
    KeepsDistinct(s, t, h);
    assert SameButFlags(s.handlers[g], t.handlers[g]);
    if Ahead(s.handlers[g], name) {
      t := OvertakenBy(p, s, t, h, g, name);
    } else {
      assert SameListener(s.listeners[l], t.listeners[l]);
      t := RunsInto(p, s, t, h, l, name);
    }
  }

  /** The session, the name and perhaps the listener that an unclear start leaves behind. */
  lemma WhyUnclear(p: Params, s: State, h: nat, act: Act) returns (g: nat, name: Str, l: nat)
    requires RegistryInv(s) && Starts(p, s, Handle(h, act)) && !ClearStep(p, s, Handle(h, act))
    ensures g < |s.handlers| && g != h && Entered(s.handlers[g].pc) && s.handlers[g].client == s.handlers[h].client
    ensures name in s.handlers[h].requested && Lookup(p, s.handlers[g].client, name).Some?
    ensures Ahead(s.handlers[g], name)
            || (Holds(s, l, g, name) && !ToClose(ActApply(p, s, h, act).handlers[h].pc, l))
  {
    var pc := ActApply(p, s, h, act).handlers[h].pc;
    assert LogOk(s, s.handlers[h].client);
    g, name :| g < |s.handlers| && Older(s, h, g) && name in s.handlers[h].requested && !LetsGo(p, s, g, name, pc);
    l := 0;
    if !Ahead(s.handlers[g], name) {
      l :| Holds(s, l, g, name) && !ToClose(pc, l);
    }
  }

  // ------------------------------------------------------------ first sessions

  lemma {:induction false} ClearExtends(p: Params, s: State, steps: seq<Step>, step: Step)
    requires ClearRun(p, s, steps) && ValidRun(p, s, steps)
    requires Enabled(p, Exec(p, s, steps), step) && ClearStep(p, Exec(p, s, steps), step)
    ensures ClearRun(p, s, steps + [step])
    decreases |steps|
  {
    if steps == [] {
      assert [step][1..] == [] && steps + [step] == [step];
    } else {
      ClearExtends(p, Apply(p, s, steps[0]), steps[1..], step);
      assert (steps + [step])[1..] == steps[1..] + [step];
    }
  }

  lemma ClearGo(p: Params, s: State, step: Step)
    requires ClearlyReached(p, s) && Enabled(p, s, step) && ClearStep(p, s, step)
    ensures ClearlyReached(p, Apply(p, s, step))
  {
    var steps :| ClearRun(p, INIT, steps) && ValidRun(p, INIT, steps) && Exec(p, INIT, steps) == s;
    ClearExtends(p, INIT, steps, step);
    RunExtends(p, INIT, steps, step);
  }

  /** A session of this client with this request. */
  function Fresh(client: Str, requested: seq<Str>, pc: Pc): (x: Handler)
  {
    Handler(pc, false, client, requested, [], false, false, 0, 1)
  }

  /** A connection comes in, authenticates and gives its token back. */
  lemma Joins(p: Params, s: State, client: Str, requested: seq<Str>)
    requires ClearlyReached(p, s) && s.tokens == 0
    ensures ClearlyReached(p, s.(handlers := s.handlers + [Fresh(client, requested, Registering)]))
  {
    var hs, n := s.handlers, |s.handlers|;
    ClearGo(p, s, ConnArrives);
    var s1 := s.(tokens := 1, handlers := hs + [NEW_HANDLER]);
    var a2 := Handle(n, Private(HandshakeOk(client, requested)));
    ClearGo(p, s1, a2);
    var x2 := NEW_HANDLER.(pc := SettingUp, client := client, requested := requested);
    var s2 := s1.(handlers := hs + [x2]);
    assert Apply(p, s1, a2) == s2;
    ClearGo(p, s2, Handle(n, ReleaseToken));
    var x3 := x2.(pc := TokenReturned, releases := 1);
    var s3 := s.(handlers := hs + [x3]);
    assert Apply(p, s2, Handle(n, ReleaseToken)) == s3;
    ClearGo(p, s3, Handle(n, Private(ClearHeld)));
    assert Apply(p, s3, Handle(n, Private(ClearHeld))) == s.(handlers := hs + [Fresh(client, requested, Registering)]);
  }

  /** The first session of a client starts, and nobody is older. */
  lemma RegistersFirst(p: Params, s: State, h: nat)
    requires ClearlyReached(p, s) && h < |s.handlers| && s.handlers[h].pc.Registering? && s.mu.None?
    requires s.handlers[h].client !in s.registry && s.handlers[h].client !in s.log
    ensures ClearlyReached(p, ReplaceSession(s, h)) && ReplaceSession(s, h).handlers[h].pc == Listening(0)
  {
    ClearGo(p, s, Handle(h, Register));
  }

  /** One session stands before the first of its names. */
  function Alone(client: Str, requested: seq<Str>): (s: State)
  {
    INIT.(handlers := [Fresh(client, requested, Listening(0))], registry := map[client := 0], log := map[client := [0]])
  }

  lemma ComesAlone(p: Params, client: Str, requested: seq<Str>)
    ensures ClearlyReached(p, Alone(client, requested))
  {
    assert ClearlyReached(p, INIT) by {
      assert ClearRun(p, INIT, []) && ValidRun(p, INIT, []) && Exec(p, INIT, []) == INIT;
    }
    Joins(p, INIT, client, requested);
    var s := INIT.(handlers := [Fresh(client, requested, Registering)]);
    assert [] + [Fresh(client, requested, Registering)] == s.handlers;
    RegistersFirst(p, s, 0);
    assert LogOf(s, client) + [0] == [0];
    assert ReplaceSession(s, 0) == Alone(client, requested);
  }

  /** It has bound that name. */
  function AloneBound(client: Str, requested: seq<Str>, addr: Str): (s: State)
    requires requested != []
  {
    Alone(client, requested).(handlers := [Fresh(client, requested, Bound(0, 0))],
                              listeners := [Listener(0, 0, requested[0], addr, true, false)])
  }

  lemma BindsAlone(p: Params, client: Str, requested: seq<Str>)
    requires requested != [] && Lookup(p, client, requested[0]).Some?
    requires !Conflict(p, p.control, Lookup(p, client, requested[0]).value)
    ensures ClearlyReached(p, AloneBound(client, requested, Lookup(p, client, requested[0]).value))
  {
    ComesAlone(p, client, requested);
    ClearGo(p, Alone(client, requested), Handle(0, BindOk));
  }

  // ------------------------------------------------------------ the exact condition on configurations

  /** Every bind that a session of a clear run comes to, having asked for distinct names, is possible. */
  ghost predicate AllBindsPossible(p: Params)
  {
    forall s, h: nat :: AboutToBind(p, s, h) ==> Enabled(p, s, Handle(h, BindOk))
  }

  lemma ControlConflictBlocks(p: Params, c: Str, n: Str)
    requires Lookup(p, c, n).Some? && Conflict(p, p.control, Lookup(p, c, n).value)
    ensures !AllBindsPossible(p)
  {
    ComesAlone(p, c, [n]);
    assert AboutToBind(p, Alone(c, [n]), 0);
  }

  /** Two services of one client. */
  lemma OwnConflictBlocks(p: Params, c: Str, n: Str, m: Str)
    requires Lookup(p, c, n).Some? && Lookup(p, c, m).Some? && n != m
    requires Conflict(p, Lookup(p, c, n).value, Lookup(p, c, m).value)
    ensures !AllBindsPossible(p)
  {
    if Conflict(p, p.control, Lookup(p, c, n).value) {
      ControlConflictBlocks(p, c, n);
    } else {
      var t := SecondName(p, c, n, m);
      assert Wanted(p, t.handlers[0]) == Lookup(p, c, m);
      assert AboutToBind(p, t, 0);
      assert Blocks(p, t.listeners[0], Lookup(p, c, m).value);
    }
  }

  /** A session that has bound its first name stands before its second. */
  lemma SecondName(p: Params, c: Str, n: Str, m: Str) returns (t: State)
    requires Lookup(p, c, n).Some? && !Conflict(p, p.control, Lookup(p, c, n).value)
    ensures ClearlyReached(p, t) && !t.ctxDone && |t.handlers| == 1 && |t.listeners| == 1
    ensures t.handlers[0].pc == Listening(1) && t.handlers[0].client == c && t.handlers[0].requested == [n, m]
    ensures t.listeners[0].open && t.listeners[0].addr == Lookup(p, c, n).value
  {
    BindsAlone(p, c, [n, m]);
    var s := AloneBound(c, [n, m], Lookup(p, c, n).value);
    ClearGo(p, s, Handle(0, Private(Append)));
    var s1 := Apply(p, s, Handle(0, Private(Append)));
    assert s1.handlers[0].pc == Appended(0, 0) && s1.handlers[0].requested == [n, m] && s1.listeners == s.listeners;
    ClearGo(p, s1, Handle(0, Spawn));
    t := Apply(p, s1, Handle(0, Spawn));
  }

  /** Services of two clients. */
  lemma OtherConflictBlocks(p: Params, c: Str, n: Str, d: Str, m: Str)
    requires Lookup(p, c, n).Some? && Lookup(p, d, m).Some? && c != d
    requires Conflict(p, Lookup(p, c, n).value, Lookup(p, d, m).value)
    ensures !AllBindsPossible(p)
  {
    if Conflict(p, p.control, Lookup(p, c, n).value) {
      ControlConflictBlocks(p, c, n);
    } else {
      BindsAlone(p, c, [n]);
      var s := AloneBound(c, [n], Lookup(p, c, n).value);
      Joins(p, s, d, [m]);
      var s1 := s.(handlers := s.handlers + [Fresh(d, [m], Registering)]);
      RegistersFirst(p, s1, 1);
      var t := ReplaceSession(s1, 1);
      assert t.handlers[1] == Fresh(d, [m], Listening(0));
      assert Wanted(p, t.handlers[1]) == Lookup(p, d, m);
      assert AboutToBind(p, t, 1);
      assert Blocks(p, t.listeners[0], Lookup(p, d, m).value);
    }
  }

  /** In clear runs every bind is possible if and only if no service conflicts with another or with
    * the control address. */
  lemma AllBindsPossibleIff(p: Params)
    ensures AllBindsPossible(p) <==> Apart(p)
  {
    if Apart(p) {
      forall s, h: nat | AboutToBind(p, s, h) ensures Enabled(p, s, Handle(h, BindOk)) {
        BindPossibleIff(p, s, h);
      }
    } else if c, n :| Lookup(p, c, n).Some? && Conflict(p, p.control, Lookup(p, c, n).value) {
      ControlConflictBlocks(p, c, n);
    } else {
      var c, n, d, m :| Lookup(p, c, n).Some? && Lookup(p, d, m).Some? && (c != d || n != m)
                        && Conflict(p, Lookup(p, c, n).value, Lookup(p, d, m).value);
      if c == d {
        OwnConflictBlocks(p, c, n, m);
      } else {
        OtherConflictBlocks(p, c, n, d, m);
      }
    }
  }

  // ------------------------------------------------------------ unclear starts happen

  /** The client of a session that stands before its first name has come again, and is about to look
    * at the first session's listeners. */
  function Overlap(client: Str, name: Str): (s: State)
  {
    Alone(client, [name]).(
      handlers := [Fresh(client, [name], Listening(0)).(cancelled := true), Fresh(client, [name], DisplaceSnapshot(0))],
      registry := map[client := 1], log := map[client := [0, 1]])
  }

  lemma OverlapReached(p: Params, c: Str, n: Str)
    ensures ClearlyReached(p, Overlap(c, n))
  {
    ComesAlone(p, c, [n]);
    var s := Alone(c, [n]);
    Joins(p, s, c, [n]);
    var s1 := s.(handlers := [Fresh(c, [n], Listening(0)), Fresh(c, [n], Registering)]);
    assert s.handlers + [Fresh(c, [n], Registering)] == s1.handlers;
    ClearGo(p, s1, Handle(1, Register));
    var s2 := s1.(handlers := [Fresh(c, [n], Listening(0)), Fresh(c, [n], DisplaceCancel(0))],
                  registry := map[c := 1], log := map[c := [0, 1]]);
    assert LogOf(s1, c) + [1] == [0, 1];
    assert Apply(p, s1, Handle(1, Register)) == s2;
    ClearGo(p, s2, Handle(1, Displace));
    assert Apply(p, s2, Handle(1, Displace)) == Overlap(c, n);
  }

  /** Whatever the configuration, any service of any client can be hit: the client's reconnect may
    * fall into the listen loop of its own previous session. */
  lemma OverlapCanCollide(p: Params, c: Str, n: Str)
    requires Apart(p) && Lookup(p, c, n).Some?
    ensures exists s, t :: ClearlyReached(p, s) && Reaches(p, s, t) && Collision(p, t, c)
  {
    OverlapReached(p, c, n);
    var s := Overlap(c, n);
    var step := Handle(1, Displace);
    assert ActApply(p, s, 1, Displace).handlers[1].pc == DisplaceClose(0, [], 0);
    assert LogOf(s, c)[0] == 0;
    assert Older(s, 1, 0);
    assert NextPos(s.handlers[0]) == 0 && s.handlers[0].requested[0] == n && s.handlers[1].requested[0] == n;
    assert Ahead(s.handlers[0], n) && n in s.handlers[1].requested;
    assert !LetsGo(p, s, 0, n, DisplaceClose(0, [], 0));
    assert Reachable(p, s);
    UnclearCanCollide(p, s, 1, Displace);
  }
}
