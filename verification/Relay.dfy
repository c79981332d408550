/** One proxied connection end to end: a user's TCP connection to the server, a mux stream to the
  * client, and the client's TCP connection to the backend, with the two relays in between. Each
  * relay runs two copy loops; any of the four loops, the two peers and the network may move next. */
module Relay {
  import opened Bytes
  import opened Framing

  /** One direction of a connection: all bytes ever written, and how many of them were read. */
  datatype Chan = Chan(sent: Str, got: nat)

  datatype Outcome = Eof | Broken

  /** Where an io.Copy goroutine is. */
  datatype Loop =
    | NotStarted
    | AtRead
    | AtWrite(chunk: Str)
    | Closing(how: Outcome)          // io.Copy returned; before Close of the destination
    | Ended(how: Outcome)            // closed, and done was signalled

  /** One direction from end to end: source, first loop, stream, second loop, sink. */
  datatype Path = Path(c0: Chan, p0: Loop, c1: Chan, p1: Loop, c2: Chan)

  /** Fwd is user to backend. */
  datatype Way = Fwd | Back

  datatype End = User | ServerConn | ServerStream | ClientStream | Local | Backend

  datatype ServerPc = SendingHeader | Relaying | GaveUp

  datatype ClientPc = ReadingHeader | Connected(target: Str) | Dropped

  /** `taken` counts a relay's receives from its done channel; it returns after the second. */
  datatype State = State(fwd: Path, back: Path, server: ServerPc, client: ClientPc, closed: set<End>,
                         muxDead: bool, serverTaken: nat, clientTaken: nat)

  const EMPTY: Path := Path(Chan([], 0), NotStarted, Chan([], 0), NotStarted, Chan([], 0))

  const INIT: State := State(EMPTY, EMPTY, SendingHeader, ReadingHeader, {}, false, 0, 0)

  /** The service the server opens and the JSON text of its Open message; how the client reads a
    * service name out of JSON text; the client's services; and the endpoints whose Close makes reads
    * from them fail, as it does for TCP. */
  datatype Tunnel = Tunnel(service: Str, open: Str, nameOf: Str -> Option<Str>, services: map<Str, Str>,
                           endsReads: set<End>)

  ghost predicate WellFormed(k: Tunnel)
  {
    |k.open| <= MAX_MESSAGE_SIZE && k.nameOf(k.open) == Some(k.service)
  }

  // ------------------------------------------------------------ steps

  datatype CopyAct =
    | Take(n: nat)                   // Read returns n bytes
    | AtEof
    | ReadFails
    | Put                            // Write takes the whole chunk
    | PutFails(n: nat)               // Write fails after n bytes
    | Finish                         // Close the destination, signal done

  datatype Step =
    | SourceSends(way: Way, b: Str)
    | SourceCloses(way: Way)
    | SinkReads(way: Way, n: nat)
    | HeaderOut(n: nat)              // proxyUser: the next n bytes of the Open frame are written
    | HeaderFails                    // proxyUser returns: stream and user connection are closed
    | HeaderIn(n: nat)               // handleStream: ReadMessage takes n bytes
    | GiveUp                         // handleStream returns before its relay
    | Dial                           // handleStream: header read, service known, target reached
    | Copy(way: Way, second: bool, act: CopyAct)
    | Collect(server: bool)          // relay: <-done
    | MuxDies

  function PathOf(s: State, way: Way): (r: Path)
  {
    if way.Fwd? then s.fwd else s.back
  }

  function SetPath(s: State, way: Way, x: Path): (r: State)
  {
    if way.Fwd? then s.(fwd := x) else s.(back := x)
  }

  function LoopOf(x: Path, second: bool): (r: Loop)
  {
    if second then x.p1 else x.p0
  }

  function SourceEnd(way: Way): (r: End)
  {
    if way.Fwd? then User else Backend
  }

  /** The endpoint a loop reads from. */
  function ReadEnd(way: Way, second: bool): (r: End)
  {
    match (way, second)
    case (Fwd, false) => ServerConn
    case (Fwd, true) => ClientStream
    case (Back, false) => Local
    case (Back, true) => ServerStream
  }

  /** The endpoint a loop writes to, and closes when it ends. */
  function WriteEnd(way: Way, second: bool): (r: End)
  {
    match (way, second)
    case (Fwd, false) => ServerStream
    case (Fwd, true) => Local
    case (Back, false) => ClientStream
    case (Back, true) => ServerConn
  }

  /** The endpoint that feeds what a loop reads. */
  function FeedEnd(way: Way, second: bool): (r: End)
  {
    if second then WriteEnd(way, false) else SourceEnd(way)
  }

  /** What of the stream the client has read so far. */
  function HeaderSeen(s: State): (r: Str)
    requires s.fwd.c1.got <= |s.fwd.c1.sent|
  {
    s.fwd.c1.sent[..s.fwd.c1.got]
  }

  /** How many more bytes ReadMessage asks the stream for at this point: first the length, then
    * the body, nothing after a length above the bound. */
  function Missing(seen: Str): (n: nat)
  {
    if |seen| < 4 then 4 - |seen|
    else
      var size := FromU32(seen[..4]);
      if size > MAX_MESSAGE_SIZE || |seen| >= 4 + size then 0 else 4 + size - |seen|
  }

  function SrcOf(x: Path, second: bool): (r: Chan)
  {
    if second then x.c1 else x.c0
  }

  function DstOf(x: Path, second: bool): (r: Chan)
  {
    if second then x.c2 else x.c1
  }

  function SetHop(x: Path, second: bool, src: Chan, p: Loop, dst: Chan): (r: Path)
  {
    if second then x.(c1 := src, p1 := p, c2 := dst) else x.(c0 := src, p0 := p, c1 := dst)
  }

  predicate CopyEnabled(k: Tunnel, s: State, way: Way, second: bool, act: CopyAct)
  {
    var x := PathOf(s, way);
    var p, src := LoopOf(x, second), SrcOf(x, second);
    match act
    case Take(n) =>
      && p.AtRead? && 0 < n && src.got + n <= |src.sent|
      && !(ReadEnd(way, second) in k.endsReads && ReadEnd(way, second) in s.closed)
    case AtEof =>
      p.AtRead? && ((src.got == |src.sent| && FeedEnd(way, second) in s.closed) || (second && s.muxDead))
    case ReadFails => p.AtRead?
    case Put => p.AtWrite? && WriteEnd(way, second) !in s.closed
    case PutFails(n) => p.AtWrite? && n <= |p.chunk| && (n > 0 ==> WriteEnd(way, second) !in s.closed)
    case Finish => p.Closing?
  }

  /** The effect of a step of io.Copy on what it reads, itself, and what it writes. */
  function CopyHop(src: Chan, p: Loop, dst: Chan, act: CopyAct): (r: (Chan, Loop, Chan))
  {
    match act
    case Take(n) =>
      if src.got + n <= |src.sent|
      then (src.(got := src.got + n), AtWrite(src.sent[src.got..src.got + n]), dst) else (src, p, dst)
    case AtEof => (src, Closing(Eof), dst)
    case ReadFails => (src, Closing(Broken), dst)
    case Put => if p.AtWrite? then (src, AtRead, dst.(sent := dst.sent + p.chunk)) else (src, p, dst)
    case PutFails(n) =>
      if p.AtWrite? && n <= |p.chunk|
      then (src, Closing(Broken), dst.(sent := dst.sent + p.chunk[..n])) else (src, p, dst)
    case Finish => if p.Closing? then (src, Ended(p.how), dst) else (src, p, dst)
  }

  function CopyPath(x: Path, second: bool, act: CopyAct): (r: Path)
  {
    var (src, p, dst) := CopyHop(SrcOf(x, second), LoopOf(x, second), DstOf(x, second), act);
    SetHop(x, second, src, p, dst)
  }

  function EndedCount(p: Loop, q: Loop): (n: nat)
  {
    (if p.Ended? then 1 else 0) + (if q.Ended? then 1 else 0)
  }

  predicate Enabled(k: Tunnel, s: State, step: Step)
  {
    match step
    case SourceSends(way, b) => SourceEnd(way) !in s.closed
    case SourceCloses(way) => true
    case SinkReads(way, n) => PathOf(s, way).c2.got + n <= |PathOf(s, way).c2.sent|
    case HeaderOut(n) => s.server.SendingHeader? && 0 < n && |s.fwd.c1.sent| + n <= |Frame(k.open)|
    case HeaderFails => s.server.SendingHeader?
    case HeaderIn(n) =>
      && s.client.ReadingHeader? && 0 < n && s.fwd.c1.got + n <= |s.fwd.c1.sent|
      && n <= Missing(HeaderSeen(s))
    case GiveUp => s.client.ReadingHeader?
    case Dial =>
      && s.client.ReadingHeader? && s.fwd.c1.got <= |s.fwd.c1.sent|
      && var r := ReadFrame(HeaderSeen(s)).outcome;
         r.Ok? && k.nameOf(r.value).Some? && k.nameOf(r.value).value in k.services
    case Copy(way, second, act) => CopyEnabled(k, s, way, second, act)
    case Collect(server) =>
      if server then s.serverTaken < EndedCount(s.fwd.p0, s.back.p1) else s.clientTaken < EndedCount(s.fwd.p1, s.back.p0)
    case MuxDies => true
  }

  function Apply(k: Tunnel, s: State, step: Step): (r: State)
    requires Enabled(k, s, step)
  {
    match step
    case SourceSends(way, b) =>
      var x := PathOf(s, way);
      SetPath(s, way, x.(c0 := x.c0.(sent := x.c0.sent + b)))
    case SourceCloses(way) => s.(closed := s.closed + {SourceEnd(way)})
    case SinkReads(way, n) =>
      var x := PathOf(s, way);
      SetPath(s, way, x.(c2 := x.c2.(got := x.c2.got + n)))
    case HeaderOut(n) =>
      var sent := |s.fwd.c1.sent|;
      var fwd := s.fwd.(c1 := s.fwd.c1.(sent := s.fwd.c1.sent + Frame(k.open)[sent..sent + n]));
      if sent + n < |Frame(k.open)| then s.(fwd := fwd)
      else s.(fwd := fwd.(p0 := AtRead), back := s.back.(p1 := AtRead), server := Relaying)
    case HeaderFails => s.(server := GaveUp, closed := s.closed + {ServerStream, ServerConn})
    case HeaderIn(n) => s.(fwd := s.fwd.(c1 := s.fwd.c1.(got := s.fwd.c1.got + n)))
    case GiveUp => s.(client := Dropped, closed := s.closed + {ClientStream})
    case Dial =>
      var name := k.nameOf(ReadFrame(HeaderSeen(s)).outcome.value).value;
      s.(fwd := s.fwd.(p1 := AtRead), back := s.back.(p0 := AtRead), client := Connected(k.services[name]))
    case Copy(way, second, act) =>
      var t := SetPath(s, way, CopyPath(PathOf(s, way), second, act));
      if act.Finish? then t.(closed := t.closed + {WriteEnd(way, second)}) else t
    case Collect(server) =>
      if server then s.(serverTaken := s.serverTaken + 1) else s.(clientTaken := s.clientTaken + 1)
    case MuxDies => s.(muxDead := true)
  }

  predicate ValidRun(k: Tunnel, s: State, steps: seq<Step>)
    decreases |steps|
  {
    steps == [] || (Enabled(k, s, steps[0]) && ValidRun(k, Apply(k, s, steps[0]), steps[1..]))
  }

  function Exec(k: Tunnel, s: State, steps: seq<Step>): (r: State)
    requires ValidRun(k, s, steps)
    decreases |steps|
  {
    if steps == [] then s else Exec(k, Apply(k, s, steps[0]), steps[1..])
  }

  ghost predicate Reachable(k: Tunnel, s: State)
  {
    exists steps :: ValidRun(k, INIT, steps) && Exec(k, INIT, steps) == s
  }

  // ------------------------------------------------------------ what one loop keeps

  /** The destination of a loop holds `lead` and then, in order, what the loop has read after the
    * first `skip` bytes of its source, short of the chunk in its hands. */
  ghost predicate Hop(src: Chan, skip: nat, p: Loop, dst: Chan, lead: Str)
  {
    && src.got <= |src.sent|
    && match p
       case NotStarted => src.got <= skip && dst.sent <= lead
       case AtRead => skip <= src.got && dst.sent == lead + src.sent[skip..src.got]
       case AtWrite(chunk) =>
         && skip + |chunk| <= src.got && chunk == src.sent[src.got - |chunk|..src.got]
         && dst.sent == lead + src.sent[skip..src.got - |chunk|]
       case Closing(how) => skip <= src.got && Copied(src.sent[skip..src.got], dst.sent, lead, how)
       case Ended(how) => skip <= src.got && Copied(src.sent[skip..src.got], dst.sent, lead, how)
  }

  /** A loop that came to the end of its source wrote everything it read; one that broke off, a prefix. */
  ghost predicate Copied(read: Str, written: Str, lead: Str, how: Outcome)
  {
    lead <= written <= lead + read && (how.Eof? ==> written == lead + read)
  }

  lemma HopTakes(src: Chan, skip: nat, dst: Chan, lead: Str, n: nat)
    requires Hop(src, skip, AtRead, dst, lead) && src.got + n <= |src.sent|
    ensures Hop(src.(got := src.got + n), skip, AtWrite(src.sent[src.got..src.got + n]), dst, lead)
  {
    assert src.got + n - |src.sent[src.got..src.got + n]| == src.got;
  }

  lemma HopPuts(src: Chan, skip: nat, chunk: Str, dst: Chan, lead: Str, n: nat)
    requires Hop(src, skip, AtWrite(chunk), dst, lead) && n <= |chunk|
    ensures Hop(src, skip, AtRead, dst.(sent := dst.sent + chunk), lead)
    ensures Hop(src, skip, Closing(Broken), dst.(sent := dst.sent + chunk[..n]), lead)
  {
    var read := src.sent[skip..src.got];
    assert read == src.sent[skip..src.got - |chunk|] + chunk;
    assert dst.sent + chunk == lead + read;
    assert dst.sent + chunk[..n] <= lead + read;
  }

  lemma HopStep(src: Chan, skip: nat, p: Loop, dst: Chan, lead: Str, act: CopyAct)
    requires Hop(src, skip, p, dst, lead)
    requires act.Take? || act.AtEof? || act.ReadFails? ==> p.AtRead?
    ensures var (src', p', dst') := CopyHop(src, p, dst, act);
            Hop(src', skip, p', dst', lead) && src'.sent == src.sent && dst'.got == dst.got && dst.sent <= dst'.sent
  {
    match act
    case Take(n) =>
      if src.got + n <= |src.sent| {
        HopTakes(src, skip, dst, lead, n);
      }
    case AtEof =>
    case ReadFails =>
    case Put =>
      if p.AtWrite? {
        HopPuts(src, skip, p.chunk, dst, lead, 0);
      }
    case PutFails(n) =>
      if p.AtWrite? && n <= |p.chunk| {
        HopPuts(src, skip, p.chunk, dst, lead, n);
      }
    case Finish =>
  }

  /** Hop says nothing of what lies behind src.got, nor of reads at the destination. */
  lemma HopGrows(src: Chan, src': Chan, skip: nat, p: Loop, dst: Chan, dst': Chan, lead: Str)
    requires Hop(src, skip, p, dst, lead)
    requires src'.got == src.got && src.sent <= src'.sent && dst'.sent == dst.sent
    ensures Hop(src', skip, p, dst', lead)
  {
    assert forall i, j :: 0 <= i <= j <= |src.sent| ==> src'.sent[i..j] == src.sent[i..j];
  }

  /** The two loops of a direction; the stream starts with `lead`. */
  ghost predicate PathInv(x: Path, lead: Str)
  {
    && Hop(x.c0, 0, x.p0, x.c1, lead) && Hop(x.c1, |lead|, x.p1, x.c2, [])
    && x.c2.got <= |x.c2.sent|
  }

  lemma PathCopyStep(x: Path, lead: Str, second: bool, act: CopyAct)
    requires PathInv(x, lead)
    requires act.Take? || act.AtEof? || act.ReadFails? ==> LoopOf(x, second).AtRead?
    ensures PathInv(CopyPath(x, second, act), lead)
  {
    if second {
      HopStep(x.c1, |lead|, x.p1, x.c2, [], act);
      var (src, p, dst) := CopyHop(x.c1, x.p1, x.c2, act);
      HopGrows(x.c0, x.c0, 0, x.p0, x.c1, src, lead);
    } else {
      HopStep(x.c0, 0, x.p0, x.c1, lead, act);
      var (src, p, dst) := CopyHop(x.c0, x.p0, x.c1, act);
      HopGrows(x.c1, dst, |lead|, x.p1, x.c2, x.c2, []);
    }
  }

  /** What has come out of a direction went into it, in the same order and from the start. */
  lemma PathKeepsOrder(x: Path, lead: Str)
    requires PathInv(x, lead)
    ensures x.c0.got <= |x.c0.sent| && x.c2.sent <= x.c0.sent[..x.c0.got]
    ensures !x.p1.NotStarted? ==> lead <= x.c1.sent && x.c2.sent <= x.c1.sent[|lead|..]
  {
    if !x.p1.NotStarted? {
      var read := x.c1.sent[|lead|..x.c1.got];
      assert x.c2.sent <= read by {
        if x.p1.AtWrite? {
          assert x.c1.sent[|lead|..x.c1.got - |x.p1.chunk|] <= read;
        }
      }
      var taken := x.c0.sent[..x.c0.got];
      assert x.c1.sent <= lead + taken by {
        if x.p0.AtWrite? {
          assert x.c0.sent[0..x.c0.got - |x.p0.chunk|] <= taken;
        }
      }
      assert lead == x.c1.sent[..|lead|];
      assert x.c1.sent[|lead|..] <= taken;
    }
  }

  // ------------------------------------------------------------ the header

  /** ReadMessage stops asking exactly when its outcome no longer depends on what follows. */
  lemma MissingUntilDecided(seen: Str)
    ensures Missing(seen) == 0 <==> ReadFrame(seen).outcome.Ok? || ReadFrame(seen).outcome == Err(TooLarge)
  {}

  /** Reading a frame that arrives piece by piece never asks for a byte behind it. */
  lemma MissingStaysInFrame(body: Str, seen: Str)
    requires |body| <= MAX_MESSAGE_SIZE && seen <= Frame(body)
    ensures |seen| + Missing(seen) <= |Frame(body)|
    ensures Missing(seen) == 0 <==> seen == Frame(body)
  {
    if |seen| >= 4 {
      assert seen[..4] == Frame(body)[..4] == U32(|body|);
      FromU32OfU32(|body|);
    }
  }

  // ------------------------------------------------------------ the invariant

  /** A loop that has ended has closed its destination; one that saw the end of its source saw all
    * of it, unless the mux died under it. */
  ghost predicate LoopOk(s: State, way: Way, second: bool)
  {
    var x := PathOf(s, way);
    var p, src := LoopOf(x, second), SrcOf(x, second);
    && (p.Ended? ==> WriteEnd(way, second) in s.closed)
    && ((p.Closing? || p.Ended?) && p.how.Eof? && !(second && s.muxDead) ==>
          FeedEnd(way, second) in s.closed && src.got == |src.sent|)
  }

  ghost predicate PcOk(k: Tunnel, s: State)
  {
    && (!s.server.Relaying? <==> s.fwd.p0.NotStarted?) && (s.fwd.p0.NotStarted? <==> s.back.p1.NotStarted?)
    && (!s.client.Connected? <==> s.fwd.p1.NotStarted?) && (s.fwd.p1.NotStarted? <==> s.back.p0.NotStarted?)
    && (s.client.Connected? ==> k.service in k.services && s.client.target == k.services[k.service])
    && s.serverTaken <= EndedCount(s.fwd.p0, s.back.p1) && s.clientTaken <= EndedCount(s.fwd.p1, s.back.p0)
  }

  ghost predicate Inv(k: Tunnel, s: State)
  {
    && PathInv(s.fwd, Frame(k.open)) && PathInv(s.back, [])
    && PcOk(k, s)
    && LoopOk(s, Fwd, false) && LoopOk(s, Fwd, true) && LoopOk(s, Back, false) && LoopOk(s, Back, true)
  }

  /** What the stream of a direction starts with. */
  function Lead(k: Tunnel, way: Way): (r: Str)
  {
    if way.Fwd? then Frame(k.open) else []
  }

  lemma SourceStep(k: Tunnel, s: State, way: Way, b: Str)
    requires Inv(k, s) && Enabled(k, s, SourceSends(way, b))
    ensures Inv(k, Apply(k, s, SourceSends(way, b)))
  {
    var x := PathOf(s, way);
    var lead := Lead(k, way);
    HopGrows(x.c0, x.c0.(sent := x.c0.sent + b), 0, x.p0, x.c1, x.c1, lead);
  }

  lemma SinkStep(k: Tunnel, s: State, way: Way, n: nat)
    requires Inv(k, s) && Enabled(k, s, SinkReads(way, n))
    ensures Inv(k, Apply(k, s, SinkReads(way, n)))
  {
    var x := PathOf(s, way);
    var lead := Lead(k, way);
    HopGrows(x.c1, x.c1, |lead|, x.p1, x.c2, x.c2.(got := x.c2.got + n), []);
  }

  lemma HeaderOutStep(k: Tunnel, s: State, n: nat)
    requires Inv(k, s) && Enabled(k, s, HeaderOut(n))
    ensures Inv(k, Apply(k, s, HeaderOut(n)))
  {
    var frame, sent := Frame(k.open), |s.fwd.c1.sent|;
    var c1 := s.fwd.c1.(sent := s.fwd.c1.sent + frame[sent..sent + n]);
    assert c1.sent == frame[..sent + n];
    HopGrows(s.fwd.c1, c1, |frame|, s.fwd.p1, s.fwd.c2, s.fwd.c2, []);
  }

  /** What the client has read of the stream while it reads the header is a piece of the frame. */
  lemma SeenIsFrame(k: Tunnel, s: State)
    requires Inv(k, s) && s.client.ReadingHeader?
    ensures HeaderSeen(s) <= Frame(k.open)
  {
    var x, frame := s.fwd, Frame(k.open);
    if x.p0.NotStarted? {
      assert x.c1.sent <= frame;
    } else {
      assert frame <= x.c1.sent;
    }
  }

  lemma HeaderInStep(k: Tunnel, s: State, n: nat)
    requires WellFormed(k) && Inv(k, s) && Enabled(k, s, HeaderIn(n))
    ensures Inv(k, Apply(k, s, HeaderIn(n)))
  {
    SeenIsFrame(k, s);
    MissingStaysInFrame(k.open, HeaderSeen(s));
  }

  lemma DialStep(k: Tunnel, s: State)
    requires WellFormed(k) && Inv(k, s) && Enabled(k, s, Dial)
    ensures Inv(k, Apply(k, s, Dial))
  {
    SeenIsFrame(k, s);
    MissingUntilDecided(HeaderSeen(s));
    MissingStaysInFrame(k.open, HeaderSeen(s));
    assert HeaderSeen(s) == Frame(k.open) + [];
    ReadFrameOfFrame(k.open, []);
  }

  lemma CopyStepPaths(k: Tunnel, s: State, way: Way, second: bool, act: CopyAct)
    requires Inv(k, s) && CopyEnabled(k, s, way, second, act)
    ensures var t := Apply(k, s, Copy(way, second, act));
            PathInv(t.fwd, Frame(k.open)) && PathInv(t.back, [])
  {
    PathCopyStep(PathOf(s, way), Lead(k, way), second, act);
  }

  lemma CopyStepLoops(k: Tunnel, s: State, way: Way, second: bool, act: CopyAct, way': Way, second': bool)
    requires LoopOk(s, way', second') && CopyEnabled(k, s, way, second, act)
    requires PathInv(s.fwd, Frame(k.open)) && PathInv(s.back, [])
    ensures LoopOk(Apply(k, s, Copy(way, second, act)), way', second')
  {}

  lemma CopyStepPcs(k: Tunnel, s: State, way: Way, second: bool, act: CopyAct)
    requires PcOk(k, s) && CopyEnabled(k, s, way, second, act)
    ensures PcOk(k, Apply(k, s, Copy(way, second, act)))
  {
    var p, q := LoopOf(PathOf(s, way), second), LoopOf(CopyPath(PathOf(s, way), second, act), second);
    assert !p.NotStarted? && !q.NotStarted? && !p.Ended?;
  }

  lemma CopyStep(k: Tunnel, s: State, way: Way, second: bool, act: CopyAct)
    requires Inv(k, s) && CopyEnabled(k, s, way, second, act)
    ensures Inv(k, Apply(k, s, Copy(way, second, act)))
  {
    CopyStepPaths(k, s, way, second, act);
    CopyStepPcs(k, s, way, second, act);
    CopyStepLoops(k, s, way, second, act, Fwd, false);
    CopyStepLoops(k, s, way, second, act, Fwd, true);
    CopyStepLoops(k, s, way, second, act, Back, false);
    CopyStepLoops(k, s, way, second, act, Back, true);
  }

  lemma InvStep(k: Tunnel, s: State, step: Step)
    requires WellFormed(k) && Inv(k, s) && Enabled(k, s, step)
    ensures Inv(k, Apply(k, s, step))
  {
    match step
    case SourceSends(way, b) => SourceStep(k, s, way, b);
    case SourceCloses(way) =>
    case SinkReads(way, n) => SinkStep(k, s, way, n);
    case HeaderOut(n) => HeaderOutStep(k, s, n);
    case HeaderFails =>
    case HeaderIn(n) => HeaderInStep(k, s, n);
    case GiveUp =>
    case Dial => DialStep(k, s);
    case Copy(way, second, act) => CopyStep(k, s, way, second, act);
    case Collect(server) =>
    case MuxDies =>
  }

  lemma {:induction false} InvRun(k: Tunnel, s: State, steps: seq<Step>)
    requires WellFormed(k) && Inv(k, s) && ValidRun(k, s, steps)
    ensures Inv(k, Exec(k, s, steps))
    decreases |steps|
  {
    if steps != [] {
      InvStep(k, s, steps[0]);
      InvRun(k, Apply(k, s, steps[0]), steps[1..]);
    }
  }

  lemma InvReachable(k: Tunnel, s: State)
    requires WellFormed(k) && Reachable(k, s)
    ensures Inv(k, s)
  {
    var steps :| ValidRun(k, INIT, steps) && Exec(k, INIT, steps) == s;
    InvRun(k, INIT, steps);
  }

  // ------------------------------------------------------------ results

  function Received(x: Path): (r: Str)
    requires x.c2.got <= |x.c2.sent|
  {
    x.c2.sent[..x.c2.got]
  }

  /** At every moment of every run the backend has received a prefix of what the user sent and the
    * user a prefix of what the backend sent. */
  lemma BytesKeepOrder(k: Tunnel, s: State)
    requires WellFormed(k) && Reachable(k, s)
    ensures s.fwd.c2.got <= |s.fwd.c2.sent| && Received(s.fwd) <= s.fwd.c0.sent
    ensures s.back.c2.got <= |s.back.c2.sent| && Received(s.back) <= s.back.c0.sent
  {
    InvReachable(k, s);
    PathKeepsOrder(s.fwd, Frame(k.open));
    PathKeepsOrder(s.back, []);
  }

  /** A client that relays has taken exactly the Open frame off the stream before its copy loop
    * began, and is connected to its own target for the very service the server opened. */
  lemma HeaderStaysOut(k: Tunnel, s: State)
    requires WellFormed(k) && Reachable(k, s) && s.client.Connected?
    ensures k.service in k.services && s.client.target == k.services[k.service]
    ensures var n := |Frame(k.open)|;
            n <= s.fwd.c1.got <= |s.fwd.c1.sent| && s.fwd.c1.sent[..n] == Frame(k.open)
            && s.fwd.c2.sent <= s.fwd.c1.sent[n..]
  {
    InvReachable(k, s);
    PathKeepsOrder(s.fwd, Frame(k.open));
  }

  /** relay returns only after both of its copies ended and both of its connections were closed,
    * and once both have ended nothing keeps it from returning. */
  lemma RelayReturnsLast(k: Tunnel, s: State)
    requires WellFormed(k) && Reachable(k, s)
    ensures s.serverTaken <= 2 && s.clientTaken <= 2
    ensures s.serverTaken == 2 ==> s.fwd.p0.Ended? && s.back.p1.Ended? && {ServerConn, ServerStream} <= s.closed
    ensures s.clientTaken == 2 ==> s.fwd.p1.Ended? && s.back.p0.Ended? && {ClientStream, Local} <= s.closed
    ensures s.fwd.p0.Ended? && s.back.p1.Ended? && s.serverTaken < 2 ==> Enabled(k, s, Collect(true))
    ensures s.fwd.p1.Ended? && s.back.p0.Ended? && s.clientTaken < 2 ==> Enabled(k, s, Collect(false))
  {
    InvReachable(k, s);
  }

  /** Which endpoints the two relays and their callers have closed. */
  ghost predicate EndsOk(s: State)
  {
    && (ServerStream in s.closed <==> s.fwd.p0.Ended? || s.server.GaveUp?)
    && (ServerConn in s.closed <==> s.back.p1.Ended? || s.server.GaveUp?)
    && (ClientStream in s.closed <==> s.back.p0.Ended? || s.client.Dropped?)
    && (Local in s.closed <==> s.fwd.p1.Ended?)
  }

  lemma EndsStep(k: Tunnel, s: State, step: Step)
    requires PcOk(k, s) && EndsOk(s) && Enabled(k, s, step)
    ensures EndsOk(Apply(k, s, step))
  {
    if step.Copy? {
      EndsCopy(k, s, step.way, step.second, step.act);
    }
  }

  lemma EndsCopy(k: Tunnel, s: State, way: Way, second: bool, act: CopyAct)
    requires EndsOk(s) && CopyEnabled(k, s, way, second, act)
    ensures EndsOk(Apply(k, s, Copy(way, second, act)))
  {
    var p, q := LoopOf(PathOf(s, way), second), LoopOf(CopyPath(PathOf(s, way), second, act), second);
    assert !p.Ended? && (q.Ended? <==> act.Finish?);
  }

  lemma {:induction false} EndsRun(k: Tunnel, s: State, steps: seq<Step>)
    requires WellFormed(k) && Inv(k, s) && EndsOk(s) && ValidRun(k, s, steps)
    ensures EndsOk(Exec(k, s, steps))
    decreases |steps|
  {
    if steps != [] {
      EndsStep(k, s, steps[0]);
      InvStep(k, s, steps[0]);
      EndsRun(k, Apply(k, s, steps[0]), steps[1..]);
    }
  }

  /** Each endpoint is closed exactly when the copy that writes to it has ended, or its side has given
    * up before relaying: nothing is cut off early and nothing is left open. */
  lemma ClosedExactly(k: Tunnel, s: State)
    requires WellFormed(k) && Reachable(k, s)
    ensures ServerStream in s.closed <==> s.fwd.p0.Ended? || s.server.GaveUp?
    ensures ServerConn in s.closed <==> s.back.p1.Ended? || s.server.GaveUp?
    ensures ClientStream in s.closed <==> s.back.p0.Ended? || s.client.Dropped?
    ensures Local in s.closed <==> s.fwd.p1.Ended?
  {
    var steps :| ValidRun(k, INIT, steps) && Exec(k, INIT, steps) == s;
    EndsRun(k, INIT, steps);
  }

  /** A sink that was brought to a clean end on a living mux has exactly the payload of the stream,
    * so its transfer is complete if and only if the first loop had put all of the source on it. */
  lemma CompleteIff(k: Tunnel, s: State, way: Way)
    requires WellFormed(k) && Reachable(k, s) && !s.muxDead && PathOf(s, way).p1 == Ended(Eof)
    ensures var x, lead := PathOf(s, way), Lead(k, way);
            && |lead| <= |x.c1.sent| && x.c2.sent == x.c1.sent[|lead|..]
            && (x.c2.sent == x.c0.sent <==> |x.c1.sent| == |lead| + |x.c0.sent|)
  {
    InvReachable(k, s);
    assert LoopOk(s, way, true);
    var x, lead := PathOf(s, way), Lead(k, way);
    PathKeepsOrder(x, lead);
    assert x.c2.sent == [] + x.c1.sent[|lead|..];
  }

  /** When both loops of a direction came to the end of their source on a living mux, the source has
    * closed and every byte it sent was handed to the sink. */
  lemma NothingLost(k: Tunnel, s: State, way: Way)
    requires WellFormed(k) && Reachable(k, s) && !s.muxDead
    requires PathOf(s, way).p0 == Ended(Eof) && PathOf(s, way).p1 == Ended(Eof)
    ensures SourceEnd(way) in s.closed && PathOf(s, way).c2.sent == PathOf(s, way).c0.sent
  {
    InvReachable(k, s);
    CompleteIff(k, s, way);
    assert LoopOk(s, way, false);
    var x := PathOf(s, way);
    assert x.c1.sent == Lead(k, way) + x.c0.sent[0..];
  }

  // ------------------------------------------------------------ winding down

  /** Steps a loop has left once its reads fail. */
  function Rank(p: Loop): (n: nat)
  {
    match p
    case NotStarted => 0
    case AtRead => 2
    case AtWrite(_) => 3
    case Closing(_) => 1
    case Ended(_) => 0
  }

  predicate IsCopyOf(step: Step, way: Way, second: bool)
  {
    step.Copy? && step.way == way && step.second == second
  }

  function CopySteps(steps: seq<Step>, way: Way, second: bool): (n: nat)
  {
    if steps == [] then 0 else (if IsCopyOf(steps[0], way, second) then 1 else 0) + CopySteps(steps[1..], way, second)
  }

  /** The loop that shares a relay with this one reads where this one writes. */
  lemma PartnerReadsThere(way: Way, second: bool)
    ensures var other := if way.Fwd? then Back else Fwd;
            ReadEnd(way, second) == WriteEnd(other, !second) && ReadEnd(other, !second) == WriteEnd(way, second)
  {}

  /** A copy step leaves the other loop of its direction, and the other direction, as they are. */
  lemma OtherLoopsRest(k: Tunnel, s: State, way: Way, second: bool, act: CopyAct, way': Way, second': bool)
    requires CopyEnabled(k, s, way, second, act) && (way != way' || second != second')
    ensures var t := Apply(k, s, Copy(way, second, act));
            LoopOf(PathOf(t, way'), second') == LoopOf(PathOf(s, way'), second')
  {}

  lemma OwnRankFalls(k: Tunnel, s: State, way: Way, second: bool, act: CopyAct)
    requires ReadEnd(way, second) in k.endsReads && ReadEnd(way, second) in s.closed && CopyEnabled(k, s, way, second, act)
    ensures var p, q := LoopOf(PathOf(s, way), second), LoopOf(CopyPath(PathOf(s, way), second, act), second);
            !q.NotStarted? && Rank(q) < Rank(p)
  {}

  lemma OthersKeepLoop(k: Tunnel, s: State, step: Step, way: Way, second: bool)
    requires Enabled(k, s, step) && PcOk(k, s) && !step.Copy? && !LoopOf(PathOf(s, way), second).NotStarted?
    ensures LoopOf(PathOf(Apply(k, s, step), way), second) == LoopOf(PathOf(s, way), second)
  {}

  lemma RankFalls(k: Tunnel, s: State, step: Step, way: Way, second: bool)
    requires ReadEnd(way, second) in k.endsReads && ReadEnd(way, second) in s.closed && Enabled(k, s, step) && PcOk(k, s)
    requires !LoopOf(PathOf(s, way), second).NotStarted?
    ensures var p, q := LoopOf(PathOf(s, way), second), LoopOf(PathOf(Apply(k, s, step), way), second);
            !q.NotStarted? && Rank(q) + (if IsCopyOf(step, way, second) then 1 else 0) <= Rank(p)
  {
    if !step.Copy? {
      OthersKeepLoop(k, s, step, way, second);
    } else if IsCopyOf(step, way, second) {
      OwnRankFalls(k, s, way, second, step.act);
    } else {
      OtherLoopsRest(k, s, step.way, step.second, step.act, way, second);
    }
  }

  lemma ClosedGrows(k: Tunnel, s: State, step: Step)
    requires Enabled(k, s, step)
    ensures s.closed <= Apply(k, s, step).closed
  {}

  lemma {:induction false} RankBoundsRun(k: Tunnel, s: State, steps: seq<Step>, way: Way, second: bool)
    requires WellFormed(k) && Inv(k, s)
    requires ReadEnd(way, second) in k.endsReads && ReadEnd(way, second) in s.closed && ValidRun(k, s, steps)
    requires !LoopOf(PathOf(s, way), second).NotStarted?
    ensures CopySteps(steps, way, second) + Rank(LoopOf(PathOf(Exec(k, s, steps), way), second))
            <= Rank(LoopOf(PathOf(s, way), second))
    decreases |steps|
  {
    if steps != [] {
      InvStep(k, s, steps[0]);
      RankFalls(k, s, steps[0], way, second);
      ClosedGrows(k, s, steps[0]);
      RankBoundsRun(k, Apply(k, s, steps[0]), steps[1..], way, second);
    }
  }

  /** Where closing an endpoint ends reads from it: after one copy of a relay has ended, the other takes
    * at most three more steps in any run, and when it has taken all that its place leaves it, it
    * has ended too. */
  lemma RelayWindsDown(k: Tunnel, s: State, steps: seq<Step>, way: Way, second: bool)
    requires WellFormed(k) && ReadEnd(way, second) in k.endsReads && Reachable(k, s) && ValidRun(k, s, steps)
    requires LoopOf(PathOf(s, if way.Fwd? then Back else Fwd), !second).Ended?
    ensures CopySteps(steps, way, second) <= 3
    ensures CopySteps(steps, way, second) == Rank(LoopOf(PathOf(s, way), second)) ==>
              LoopOf(PathOf(Exec(k, s, steps), way), second).Ended?
  {
    InvReachable(k, s);
    var other := if way.Fwd? then Back else Fwd;
    assert LoopOk(s, other, !second);
    PartnerReadsThere(way, second);
    RankBoundsRun(k, s, steps, way, second);
    RunStarted(k, s, steps, way, second);
  }

  lemma {:induction false} RunStarted(k: Tunnel, s: State, steps: seq<Step>, way: Way, second: bool)
    requires ValidRun(k, s, steps) && !LoopOf(PathOf(s, way), second).NotStarted?
    ensures !LoopOf(PathOf(Exec(k, s, steps), way), second).NotStarted?
    decreases |steps|
  {
    if steps != [] {
      RunStarted(k, Apply(k, s, steps[0]), steps[1..], way, second);
    }
  }
}
