/** How transfers end badly: relay throws away the errors of its copies and closes whole connections
  * where only one direction has ended. */
module RelayEndings {
  import opened Bytes
  import opened Framing
  import opened Relay

  // ------------------------------------------------------------ reachable states, step by step

  lemma {:induction false} RunExtends(k: Tunnel, s: State, steps: seq<Step>, step: Step)
    requires ValidRun(k, s, steps) && Enabled(k, Exec(k, s, steps), step)
    ensures ValidRun(k, s, steps + [step]) && Exec(k, s, steps + [step]) == Apply(k, Exec(k, s, steps), step)
    decreases |steps|
  {
    if steps == [] {
      assert [step][1..] == [] && steps + [step] == [step];
    } else {
      RunExtends(k, Apply(k, s, steps[0]), steps[1..], step);
      assert (steps + [step])[1..] == steps[1..] + [step];
    }
  }

  lemma ReachStep(k: Tunnel, s: State, step: Step)
    requires Reachable(k, s) && Enabled(k, s, step)
    ensures Reachable(k, Apply(k, s, step))
  {
    var steps :| ValidRun(k, INIT, steps) && Exec(k, INIT, steps) == s;
    RunExtends(k, INIT, steps, step);
  }

  const FRESH: Path := Path(Chan([], 0), AtRead, Chan([], 0), AtRead, Chan([], 0))

  /** Both relays have just begun. */
  function Opened(k: Tunnel): (s: State)
    requires k.service in k.services
  {
    var f := Frame(k.open);
    State(FRESH.(c1 := Chan(f, |f|)), FRESH, Relaying, Connected(k.services[k.service]), {}, false, 0, 0)
  }

  /** The header is on the stream, and the client has read n bytes of it. */
  function HeaderRead(k: Tunnel, n: nat): (s: State)
  {
    INIT.(fwd := EMPTY.(c1 := Chan(Frame(k.open), n), p0 := AtRead), back := EMPTY.(p1 := AtRead), server := Relaying)
  }

  lemma HeaderArrives(k: Tunnel)
    requires WellFormed(k)
    ensures Reachable(k, HeaderRead(k, |Frame(k.open)|))
  {
    var f := Frame(k.open);
    assert Reachable(k, INIT) by {
      assert ValidRun(k, INIT, []) && Exec(k, INIT, []) == INIT;
    }
    ReachStep(k, INIT, HeaderOut(|f|));
    assert [] + f[0..|f|] == f;
    assert Apply(k, INIT, HeaderOut(|f|)) == HeaderRead(k, 0);
    ReachStep(k, HeaderRead(k, 0), HeaderIn(4));
    if |k.open| > 0 {
      assert HeaderSeen(HeaderRead(k, 4)) <= f;
      MissingAfterLength(k);
      ReachStep(k, HeaderRead(k, 4), HeaderIn(|k.open|));
    }
  }

  lemma MissingAfterLength(k: Tunnel)
    requires WellFormed(k)
    ensures Missing(Frame(k.open)[..4]) == |k.open|
  {
    var seen := Frame(k.open)[..4];
    assert seen == U32(|k.open|) && seen[..4] == seen;
    FromU32OfU32(|k.open|);
  }

  lemma RelaysBegin(k: Tunnel)
    requires WellFormed(k) && k.service in k.services
    ensures Reachable(k, Opened(k))
  {
    var f := Frame(k.open);
    HeaderArrives(k);
    var s := HeaderRead(k, |f|);
    assert HeaderSeen(s) == f + [];
    ReadFrameOfFrame(k.open, []);
    ReachStep(k, s, Dial);
  }

  /** A loop takes everything that is there and passes it on. */
  function Passed(x: Path, second: bool): (y: Path)
    requires SrcOf(x, second).got <= |SrcOf(x, second).sent|
  {
    var src, dst := SrcOf(x, second), DstOf(x, second);
    SetHop(x, second, src.(got := |src.sent|), AtRead, dst.(sent := dst.sent + src.sent[src.got..]))
  }

  lemma Passes(k: Tunnel, s: State, way: Way, second: bool)
    requires Reachable(k, s) && LoopOf(PathOf(s, way), second).AtRead?
    requires SrcOf(PathOf(s, way), second).got < |SrcOf(PathOf(s, way), second).sent|
    requires ReadEnd(way, second) !in s.closed && WriteEnd(way, second) !in s.closed
    ensures Reachable(k, SetPath(s, way, Passed(PathOf(s, way), second)))
  {
    var x := PathOf(s, way);
    var src, dst := SrcOf(x, second), DstOf(x, second);
    var n := |src.sent| - src.got;
    assert src.sent[src.got..src.got + n] == src.sent[src.got..];
    var y := SetHop(x, second, src.(got := |src.sent|), AtWrite(src.sent[src.got..]), dst);
    ReachStep(k, s, Copy(way, second, Take(n)));
    assert Apply(k, s, Copy(way, second, Take(n))) == SetPath(s, way, y);
    ReachStep(k, SetPath(s, way, y), Copy(way, second, Put));
  }

  /** The state after a loop has come to the given end. */
  function Stopped(s: State, way: Way, second: bool, how: Outcome): (t: State)
  {
    var x := PathOf(s, way);
    SetPath(s, way, SetHop(x, second, SrcOf(x, second), Ended(how), DstOf(x, second)))
      .(closed := s.closed + {WriteEnd(way, second)})
  }

  lemma StopsAtEof(k: Tunnel, s: State, way: Way, second: bool)
    requires Reachable(k, s) && LoopOf(PathOf(s, way), second).AtRead? && FeedEnd(way, second) in s.closed
    requires SrcOf(PathOf(s, way), second).got == |SrcOf(PathOf(s, way), second).sent|
    ensures Reachable(k, Stopped(s, way, second, Eof))
  {
    var x := PathOf(s, way);
    var t := SetPath(s, way, SetHop(x, second, SrcOf(x, second), Closing(Eof), DstOf(x, second)));
    ReachStep(k, s, Copy(way, second, AtEof));
    assert Apply(k, s, Copy(way, second, AtEof)) == t;
    ReachStep(k, t, Copy(way, second, Finish));
  }

  // ------------------------------------------------------------ a cut transfer looks finished

  /** The user has sent b, and the server's loop failed after n bytes of it. */
  function CutAfter(k: Tunnel, b: Str, n: nat): (s: State)
    requires k.service in k.services && n <= |b|
  {
    var f := Frame(k.open);
    Opened(k).(fwd := Path(Chan(b, |b|), Ended(Broken), Chan(f + b[..n], |f|), AtRead, Chan([], 0)), closed := {ServerStream})
  }

  lemma ServerLoopCut(k: Tunnel, b: Str, n: nat)
    requires WellFormed(k) && k.service in k.services && n < |b|
    ensures Reachable(k, CutAfter(k, b, n))
  {
    RelaysBegin(k);
    var s0 := Opened(k);
    ReachStep(k, s0, SourceSends(Fwd, b));
    var s1 := s0.(fwd := s0.fwd.(c0 := Chan(b, 0)));
    assert [] + b == b;
    ReachStep(k, s1, Copy(Fwd, false, Take(|b|)));
    var s2 := s0.(fwd := s0.fwd.(c0 := Chan(b, |b|), p0 := AtWrite(b)));
    assert b[0..|b|] == b;
    ReachStep(k, s2, Copy(Fwd, false, PutFails(n)));
    var s3 := Apply(k, s2, Copy(Fwd, false, PutFails(n)));
    ReachStep(k, s3, Copy(Fwd, false, Finish));
  }

  /** Whatever the user sent, any strict prefix of it can be all that the backend gets, ended on a
    * living mux by the same clean end-of-file as a complete transfer. */
  lemma TruncationLooksClean(k: Tunnel, b: Str, n: nat)
    requires WellFormed(k) && k.service in k.services && n < |b|
    ensures exists s :: Reachable(k, s) && !s.muxDead && s.fwd.p1 == Ended(Eof) && Local in s.closed
                        && s.fwd.c0.sent == b && s.fwd.c2.sent == b[..n]
  {
    ServerLoopCut(k, b, n);
    var f := Frame(k.open);
    var s := CutAfter(k, b, n);
    assert (f + b[..n])[|f|..] == b[..n];
    if n > 0 {
      Passes(k, s, Fwd, true);
      s := SetPath(s, Fwd, Passed(s.fwd, true));
    }
    assert [] + b[..n] == b[..n];
    StopsAtEof(k, s, Fwd, true);
    s := Stopped(s, Fwd, true, Eof);
    assert s.fwd.c2.sent == b[..n];
  }

  /** The user's bytes are on the stream when the mux dies. */
  function OnStream(k: Tunnel, b: Str): (s: State)
    requires k.service in k.services
  {
    var f := Frame(k.open);
    Opened(k).(fwd := Path(Chan(b, |b|), AtRead, Chan(f + b, |f|), AtRead, Chan([], 0)))
  }

  /** A mux that dies can end a transfer as cleanly, with bytes still on the stream. */
  lemma MuxDeathLooksClean(k: Tunnel, b: Str)
    requires WellFormed(k) && k.service in k.services && b != []
    ensures exists s :: Reachable(k, s) && s.muxDead && s.fwd.p1 == Ended(Eof) && Local in s.closed
                        && s.fwd.c0.sent == b && s.fwd.c1.sent == Frame(k.open) + b && s.fwd.c2.sent == []
  {
    RelaysBegin(k);
    var s0 := Opened(k);
    ReachStep(k, s0, SourceSends(Fwd, b));
    var s1 := s0.(fwd := s0.fwd.(c0 := Chan(b, 0)));
    assert [] + b == b && b[0..] == b;
    Passes(k, s1, Fwd, false);
    assert SetPath(s1, Fwd, Passed(s1.fwd, false)) == OnStream(k, b);
    ReachStep(k, OnStream(k, b), MuxDies);
    var s2 := OnStream(k, b).(muxDead := true);
    ReachStep(k, s2, Copy(Fwd, true, AtEof));
    var s3 := Apply(k, s2, Copy(Fwd, true, AtEof));
    ReachStep(k, s3, Copy(Fwd, true, Finish));
    var s4 := Apply(k, s3, Copy(Fwd, true, Finish));
    assert s4.fwd.c2.sent == [] && s4.fwd.c1.sent == Frame(k.open) + b;
  }

  // ------------------------------------------------------------ half-closed connections

  lemma {:induction false} SourceGrows(k: Tunnel, s: State, steps: seq<Step>, way: Way)
    requires ValidRun(k, s, steps)
    ensures PathOf(s, way).c0.sent <= PathOf(Exec(k, s, steps), way).c0.sent
    decreases |steps|
  {
    if steps != [] {
      SourceGrows(k, Apply(k, s, steps[0]), steps[1..], way);
    }
  }

  /** Where closing an endpoint ends reads from it, the first loop of a direction takes nothing more
    * once its endpoint is closed. */
  lemma {:induction false} NothingMoreTaken(k: Tunnel, s: State, steps: seq<Step>, way: Way)
    requires ReadEnd(way, false) in s.closed && ReadEnd(way, false) in k.endsReads && ValidRun(k, s, steps)
    ensures PathOf(Exec(k, s, steps), way).c0.got == PathOf(s, way).c0.got
    decreases |steps|
  {
    if steps != [] {
      ClosedGrows(k, s, steps[0]);
      NothingMoreTaken(k, Apply(k, s, steps[0]), steps[1..], way);
    }
  }

  lemma {:induction false} ReachRun(k: Tunnel, s: State, steps: seq<Step>)
    requires Reachable(k, s) && ValidRun(k, s, steps)
    ensures Reachable(k, Exec(k, s, steps))
    decreases |steps|
  {
    if steps != [] {
      ReachStep(k, s, steps[0]);
      ReachRun(k, Apply(k, s, steps[0]), steps[1..]);
    }
  }

  /** Once the endpoint that a direction enters by is closed on the relay's side, in every
    * continuation its sink gets at most what the first loop had already taken from the source. */
  lemma HalfCloseBound(k: Tunnel, s: State, steps: seq<Step>, way: Way)
    requires WellFormed(k) && Reachable(k, s) && ValidRun(k, s, steps)
    requires ReadEnd(way, false) in s.closed && ReadEnd(way, false) in k.endsReads
    ensures var x, y := PathOf(s, way), PathOf(Exec(k, s, steps), way);
            x.c0.got <= |x.c0.sent| && y.c2.sent <= x.c0.sent[..x.c0.got]
  {
    ReachRun(k, s, steps);
    InvReachable(k, s);
    InvReachable(k, Exec(k, s, steps));
    SourceGrows(k, s, steps, way);
    NothingMoreTaken(k, s, steps, way);
    PathKeepsOrder(PathOf(Exec(k, s, steps), way), Lead(k, way));
  }

  /** The loop has not ended on a failed write. */
  ghost predicate Whole(src: Chan, skip: nat, p: Loop, dst: Chan, lead: Str)
  {
    (p.Closing? || p.Ended?) && skip <= src.got <= |src.sent| ==> dst.sent == lead + src.sent[skip..src.got]
  }

  ghost predicate WholePath(x: Path, lead: Str)
  {
    Whole(x.c0, 0, x.p0, x.c1, lead) && Whole(x.c1, |lead|, x.p1, x.c2, [])
  }

  predicate IsFailedWrite(step: Step, way: Way)
  {
    step.Copy? && step.way == way && step.act.PutFails?
  }

  lemma WholeCopy(x: Path, lead: Str, second: bool, act: CopyAct)
    requires PathInv(x, lead) && WholePath(x, lead) && !act.PutFails?
    requires act.Take? || act.AtEof? || act.ReadFails? ==> LoopOf(x, second).AtRead?
    requires act.Put? ==> LoopOf(x, second).AtWrite?
    ensures WholePath(CopyPath(x, second, act), lead)
  {
    var y := CopyPath(x, second, act);
    if !second && act.Put? && x.c1.got <= |x.c1.sent| {
      assert forall i, j :: 0 <= i <= j <= |x.c1.sent| ==> y.c1.sent[i..j] == x.c1.sent[i..j];
    }
  }

  /** What steps other than a direction's own copies do to it. */
  ghost predicate Grew(x: Path, y: Path)
  {
    && (y.p0 == x.p0 || (x.p0.NotStarted? && y.p0.AtRead?))
    && (y.p1 == x.p1 || (x.p1.NotStarted? && y.p1.AtRead?))
    && y.c0.got == x.c0.got && x.c0.sent <= y.c0.sent && y.c2.sent == x.c2.sent
    && x.c1.sent <= y.c1.sent && (y.c1.sent == x.c1.sent || x.p0.NotStarted?) && (y.c1.got == x.c1.got || x.p1.NotStarted?)
  }

  lemma WholeGrows(x: Path, y: Path, lead: Str)
    requires PathInv(x, lead) && WholePath(x, lead) && Grew(x, y)
    ensures WholePath(y, lead)
  {
    assert forall i, j :: 0 <= i <= j <= |x.c0.sent| ==> y.c0.sent[i..j] == x.c0.sent[i..j];
    assert forall i, j :: 0 <= i <= j <= |x.c1.sent| ==> y.c1.sent[i..j] == x.c1.sent[i..j];
  }

  lemma OthersGrow(k: Tunnel, s: State, step: Step, way: Way)
    requires PcOk(k, s) && Enabled(k, s, step) && !step.Copy?
    ensures Grew(PathOf(s, way), PathOf(Apply(k, s, step), way))
  {}

  lemma WholeStep(k: Tunnel, s: State, step: Step, way: Way)
    requires Inv(k, s) && Enabled(k, s, step) && !IsFailedWrite(step, way)
    requires WholePath(PathOf(s, way), Lead(k, way))
    ensures WholePath(PathOf(Apply(k, s, step), way), Lead(k, way))
  {
    var x, y := PathOf(s, way), PathOf(Apply(k, s, step), way);
    if !step.Copy? {
      OthersGrow(k, s, step, way);
      WholeGrows(x, y, Lead(k, way));
    } else if step.way == way {
      WholeCopy(x, Lead(k, way), step.second, step.act);
    } else {
      assert y == x;
    }
  }

  lemma {:induction false} WholeRun(k: Tunnel, s: State, steps: seq<Step>, way: Way)
    requires WellFormed(k) && Inv(k, s) && ValidRun(k, s, steps) && WholePath(PathOf(s, way), Lead(k, way))
    requires forall i :: 0 <= i < |steps| ==> !IsFailedWrite(steps[i], way)
    ensures WholePath(PathOf(Exec(k, s, steps), way), Lead(k, way))
    decreases |steps|
  {
    if steps != [] {
      WholeStep(k, s, steps[0], way);
      InvStep(k, s, steps[0]);
      forall i | 0 <= i < |steps[1..]| ensures !IsFailedWrite(steps[1..][i], way) {
        assert steps[1..][i] == steps[i + 1];
      }
      WholeRun(k, Apply(k, s, steps[0]), steps[1..], way);
    }
  }

  /** And it gets all of that, when no write of the direction fails and its second loop comes to the
    * end of the stream on a living mux. */
  lemma HalfCloseDelivers(k: Tunnel, s: State, steps: seq<Step>, way: Way)
    requires WellFormed(k) && Reachable(k, s) && ValidRun(k, s, steps)
    requires ReadEnd(way, false) in s.closed && ReadEnd(way, false) in k.endsReads
    requires WholePath(PathOf(s, way), Lead(k, way))
    requires forall i :: 0 <= i < |steps| ==> !IsFailedWrite(steps[i], way)
    requires var y := PathOf(Exec(k, s, steps), way); y.p0.Ended? && y.p1 == Ended(Eof)
    requires !Exec(k, s, steps).muxDead
    ensures var x, y := PathOf(s, way), PathOf(Exec(k, s, steps), way);
            x.c0.got <= |x.c0.sent| && y.c2.sent == x.c0.sent[..x.c0.got]
  {
    var t := Exec(k, s, steps);
    ReachRun(k, s, steps);
    InvReachable(k, s);
    InvReachable(k, t);
    WholeRun(k, s, steps, way);
    SourceGrows(k, s, steps, way);
    NothingMoreTaken(k, s, steps, way);
    CompleteIff(k, t, way);
    var y := PathOf(t, way);
    assert y.c1.sent == Lead(k, way) + y.c0.sent[0..y.c0.got];
    assert y.c1.sent[|Lead(k, way)|..] == y.c0.sent[0..y.c0.got];
  }

  /** The user has sent b and closed; the forward direction has ended well. */
  function AllSent(k: Tunnel, b: Str, reply: Str): (s: State)
    requires k.service in k.services
  {
    var f := Frame(k.open);
    Opened(k).(fwd := Path(Chan(b, |b|), Ended(Eof), Chan(f + b, |f| + |b|), Ended(Eof), Chan(b, 0)),
               back := FRESH.(c0 := Chan(reply, 0)), closed := {User, ServerStream, Local})
  }

  lemma RequestGoesThrough(k: Tunnel, b: Str, reply: Str)
    requires WellFormed(k) && k.service in k.services && b != []
    ensures Reachable(k, AllSent(k, b, reply))
  {
    RelaysBegin(k);
    var f := Frame(k.open);
    var s0 := Opened(k);
    ReachStep(k, s0, SourceSends(Fwd, b));
    var s1 := s0.(fwd := s0.fwd.(c0 := Chan(b, 0)));
    assert [] + b == b && b[0..] == b && (f + b)[|f|..] == b;
    ReachStep(k, s1, SourceCloses(Fwd));
    var s2 := s1.(closed := {User});
    Passes(k, s2, Fwd, false);
    var s3 := s2.(fwd := Path(Chan(b, |b|), AtRead, Chan(f + b, |f|), AtRead, Chan([], 0)));
    StopsAtEof(k, s3, Fwd, false);
    var s4 := Stopped(s3, Fwd, false, Eof);
    Passes(k, s4, Fwd, true);
    var s5 := s4.(fwd := s4.fwd.(c1 := Chan(f + b, |f| + |b|), c2 := Chan(b, 0)));
    StopsAtEof(k, s5, Fwd, true);
    var s6 := Stopped(s5, Fwd, true, Eof);
    ReachStep(k, s6, SourceSends(Back, reply));
    assert [] + reply == reply;
    assert Apply(k, s6, SourceSends(Back, reply)).closed == AllSent(k, b, reply).closed;
  }

  /** A user that sends its request and closes its side can lose the whole reply: a state is reachable
    * in which the request went through cleanly, the mux lives and the backend has answered, and in
    * no continuation does a byte of the answer reach the user. */
  lemma HalfCloseLosesReply(k: Tunnel, b: Str, reply: Str)
    requires WellFormed(k) && k.service in k.services && b != [] && Local in k.endsReads
    ensures exists s :: Reachable(k, s) && !s.muxDead && Backend !in s.closed && ServerConn !in s.closed
              && s.fwd.p0 == Ended(Eof) && s.fwd.p1 == Ended(Eof) && s.fwd.c2.sent == b && s.back.c0.sent == reply
              && forall steps :: ValidRun(k, s, steps) ==> Exec(k, s, steps).back.c2.sent == []
  {
    RequestGoesThrough(k, b, reply);
    var s := AllSent(k, b, reply);
    forall steps | ValidRun(k, s, steps) ensures Exec(k, s, steps).back.c2.sent == [] {
      HalfCloseBound(k, s, steps, Back);
    }
  }
}
