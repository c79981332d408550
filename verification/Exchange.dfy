/** The handshake as both ends run it over a pair of framed byte streams. */
module Exchange {
  import opened Bytes
  import opened SigningInput
  import opened Config
  import opened Framing
  import opened Handshake
  import ClockSkew
  import KeyText

  /** encoding/json, as far as the handshake uses it. A reply carries no tag: AuthFailed read as
    * Accepted has an empty session id. */
  datatype Codec = Codec(
    hello: (Str, Int64) -> Str, asHello: Str -> Option<Str>,
    auth: ClientAuth -> Str, asAuth: Str -> Option<ClientAuth>,
    accepted: Str -> Str, failed: Str -> Str, asAccepted: Str -> Option<Str>)

  const FAILURE_REASON: Str := Lit("authentication failed")

  /** What the handshake needs of JSON in its replies. */
  ghost predicate RepliesRead(codec: Codec)
  {
    && (forall sid :: IsHex(sid) ==> codec.asAccepted(codec.accepted(sid)) == Some(sid))
    && codec.asAccepted(codec.failed(FAILURE_REASON)) == Some([])
  }

  // ------------------------------------------------------------ the client's answer

  /** A client: its id, the public halves of its keys, and the names of its services. */
  datatype Peer = Peer(id: Str, edKey: Str, pqKey: Str, requested: seq<Str>)

  /** The ClientAuth an honest client answers a nonce with. */
  function Answer(c: Peer, nonce: Str, exporter: Str, time: Int64): (ca: ClientAuth)
  {
    var claim := Claim(nonce, exporter, c.id, time);
    ClientAuth(c.id, time, EdMade(c.edKey, EdMessage(claim)), c.requested, PQ_ALGORITHM,
               PqMade(c.pqKey, PQ_AUTH_LABEL, PqMessage(PqClaim(claim, c.requested))))
  }

  /** The ClientAuth names the client, its time and its services as they are, each once. */
  ghost predicate SaysWho(c: Peer, time: Int64, ca: ClientAuth)
  {
    ca.id == c.id && ca.time == time && ca.requested == c.requested && ca.pqAlgorithm == Lit("mldsa")
  }

  /** Both of the client's keys signed what it says, over the nonce it was sent and its own exporter. */
  ghost predicate Signs(c: Peer, nonce: Str, exporter: Str, time: Int64, ca: ClientAuth)
  {
    && ca.signature == EdMade(c.edKey, nonce + exporter + c.id + I64(time))
    && ca.pqSignature == PqMade(c.pqKey, Lit("passage-client-auth-v2"),
                                PqMessage(PqClaim(Claim(nonce, exporter, c.id, time), c.requested)))
  }

  lemma AnswerIsHonest(c: Peer, nonce: Str, exporter: Str, time: Int64)
    ensures var ca := Answer(c, nonce, exporter, time); SaysWho(c, time, ca) && Signs(c, nonce, exporter, time, ca)
  {
    EdBytes(Claim(nonce, exporter, c.id, time), 0);
  }

  /** The client is configured on the server with these keys and services, and its clock will do. */
  ghost predicate Admissible(clients: seq<ClientEntry>, c: Peer, now: ClockSkew.Time, time: Int64)
  {
    var i := FindClient(clients, c.id);
    && (ClockSkew.WithinWindow(now, time) || ClockSkew.BeyondRange(now, time))
    && i != -1
    && EdKeyOf(clients[i], c.edKey) && PqKeyOf(clients[i], c.pqKey)
    && c.requested != []
    && (forall k :: 0 <= k < |c.requested| ==> Offers(clients[i], c.requested[k]))
  }

  /** The server accepts an honest answer exactly when the client is admissible and both ends of the
    * connection derived the same exporter. */
  lemma HonestAnswerAcceptedIff(clients: seq<ClientEntry>, now: ClockSkew.Time, c: Peer, nonce: Str, exporter: Str,
                                theirs: Str, time: Int64)
    requires |exporter| == EXPORTER_SIZE && |theirs| == EXPORTER_SIZE
    ensures Decide(clients, now, Hello(nonce, exporter), Answer(c, nonce, theirs, time)).Accepted? <==>
            Admissible(clients, c, now, time) && exporter == theirs
  {
    var ca := Answer(c, nonce, theirs, time);
    var hello := Hello(nonce, exporter);
    var i := FindClient(clients, c.id);
    ClockSkew.SkewAccepts(now, time);
    assert PQ_ALGORITHM[0] == 109 && ca.pqSignature.Size() != 0;
    var mine, other := Claim(nonce, exporter, c.id, time), Claim(nonce, theirs, c.id, time);
    assert EdMessage(mine)[|nonce|..|nonce| + 32] == exporter;
    assert EdMessage(other)[|nonce|..|nonce| + 32] == theirs;
    if i != -1 && exporter == theirs {
      HonestKeysListed(clients[i], hello, c, time);
    }
  }

  lemma HonestKeysListed(e: ClientEntry, hello: Hello, c: Peer, time: Int64)
    ensures var ca := Answer(c, hello.nonce, hello.exporter, time);
            (EdListed(e, hello, ca) <==> EdKeyOf(e, c.edKey)) && (PqListed(e, hello, ca) <==> PqKeyOf(e, c.pqKey))
  {
    HonestEdListed(e, hello, c, time);
    HonestPqListed(e, hello, c, time);
  }

  lemma HonestEdListed(e: ClientEntry, hello: Hello, c: Peer, time: Int64)
    ensures EdListed(e, hello, Answer(c, hello.nonce, hello.exporter, time)) <==> EdKeyOf(e, c.edKey)
  {
    var ca := Answer(c, hello.nonce, hello.exporter, time);
    if EdKeyOf(e, c.edKey) {
      var k :| 0 <= k < |e.pubkeys| && Reads(e.pubkeys[k], KeyText.PUBKEY_PREFIX, KeyText.ED25519_KEY_SIZE, c.edKey);
      assert EdVerifies(c.edKey, EdMessage(ClaimOf(hello.nonce, hello.exporter, ca)), ca.signature);
    }
  }

  lemma HonestPqListed(e: ClientEntry, hello: Hello, c: Peer, time: Int64)
    ensures PqListed(e, hello, Answer(c, hello.nonce, hello.exporter, time)) <==> PqKeyOf(e, c.pqKey)
  {
    var ca := Answer(c, hello.nonce, hello.exporter, time);
    if PqKeyOf(e, c.pqKey) {
      var k :| 0 <= k < |e.pqPubkeys| && Reads(e.pqPubkeys[k], KeyText.PQ_PUBKEY_PREFIX, KeyText.MLDSA_KEY_SIZE, c.pqKey);
      assert PqVerifies(c.pqKey, PqMessage(PqClaimOf(hello.nonce, hello.exporter, ca)), PQ_AUTH_LABEL, ca.pqSignature);
    }
  }

  // ------------------------------------------------------------ the exchange

  /** What stands on a stream after one attempt to write a message to it. */
  ghost predicate Wrote(ok: bool, data: Str, body: Str)
  {
    if ok then |body| <= MAX_MESSAGE_SIZE && data == Frame(body)
    else data == [] || (|body| <= MAX_MESSAGE_SIZE && data < Frame(body))
  }

  /** A message cut off anywhere is an error to its reader, never another message. */
  lemma CutFrameFails(body: Str, data: Str)
    requires Wrote(false, data, body)
    ensures ReadFrame(data).outcome.Err?
  {
    if |data| >= 4 {
      assert data[..4] == Frame(body)[..4] == U32(|body|);
      FromU32OfU32(|body|);
    }
  }

  lemma WholeFrameReads(body: Str, data: Str)
    requires Wrote(true, data, body)
    ensures ReadFrame(data) == Reading(Ok(body), [])
  {
    assert data == Frame(body) + [];
    ReadFrameOfFrame(body, []);
  }

  /** The reader gets the message if it was written whole and arrives whole, and an error otherwise. */
  lemma ArrivesOrFails(ok: bool, data: Str, body: Str, reach: nat)
    requires Wrote(ok, data, body)
    ensures ok && reach >= 4 + |body| ==> ReadFrame(Upto(data, reach)) == Reading(Ok(body), [])
    ensures !(ok && reach >= 4 + |body|) ==> ReadFrame(Upto(data, reach)).outcome.Err?
  {
    if ok && reach >= 4 + |body| {
      WholeFrameReads(body, data);
    } else {
      CutFrameFails(body, Upto(data, reach));
    }
  }

  method WriteTo(p: Pipe, body: Str) returns (ok: bool)
    requires p.data == []
    modifies p`data, p`budget
    ensures Wrote(ok, p.data, body)
    ensures ok <==> |body| <= MAX_MESSAGE_SIZE && old(p.budget) >= 4 + |body|
    ensures ok ==> p.budget == old(p.budget) - 4 - |body|
  {
    var r := p.WriteMessage(body);
    ok := r.Ok?;
    if r == Err(WriteFailed) {
      assert p.data == Frame(body)[..old(p.budget)];
    }
  }

  /** Client.runHandshake up to its ClientAuth: the answer, if it was written in full. */
  method ClientAnswers(down: Pipe, up: Pipe, codec: Codec, c: Peer, exporter: Str, time: Int64)
    returns (sent: Option<ClientAuth>)
    requires down != up && up.data == []
    modifies down`data, down`reach, up`data, up`budget
    ensures var r := ReadFrame(old(down.Arriving())).outcome;
            && (r.Ok? ==> |old(down.data)| == 4 + |r.value| + |down.data| && 4 + |r.value| + down.reach == old(down.reach))
            && (r.Err? || codec.asHello(r.value).None? ==> sent.None? && up.data == [])
            && (r.Ok? && codec.asHello(r.value).Some? ==>
                  var ca := Answer(c, codec.asHello(r.value).value, exporter, time);
                  && (sent.Some? ==> sent.value == ca && SaysWho(c, time, sent.value)
                                     && Signs(c, codec.asHello(r.value).value, exporter, time, sent.value))
                  && (sent.Some? <==> |codec.auth(ca)| <= MAX_MESSAGE_SIZE && old(up.budget) >= 4 + |codec.auth(ca)|)
                  && Wrote(sent.Some?, up.data, codec.auth(ca)))
  {
    var r := down.ReadMessage();
    if r.Err? {
      return None;
    }
    var nonce := codec.asHello(r.value);
    if nonce.None? {
      return None;
    }
    var ed := BuildEdMessage(nonce.value, exporter, c.id, time);
    var pq := BuildPqMessage(nonce.value, exporter, c.id, time, c.requested);
    var ca := ClientAuth(c.id, time, EdMade(c.edKey, ed), c.requested, PQ_ALGORITHM, PqMade(c.pqKey, PQ_AUTH_LABEL, pq));
    AnswerIsHonest(c, nonce.value, exporter, time);
    var ok := WriteTo(up, codec.auth(ca));
    return if ok then Some(ca) else None;
  }

  /** The rest of Server.runHandshake: the session id, if the client was accepted and its reply was
    * written in full. */
  method ServerReplies(ghost clients: seq<ClientEntry>, idx: Index, up: Pipe, down: Pipe, codec: Codec,
                       hello: Hello, now: ClockSkew.Time, random: Str)
    returns (session: Option<Str>, ghost accepted: bool)
    requires UniqueIds(clients) && Indexes(clients, idx) && up != down
    requires down.data == [] || ReadFrame(up.Arriving()).outcome.Err?
    modifies up`data, up`reach, down`data, down`budget
    ensures var r := ReadFrame(old(up.Arriving())).outcome;
            accepted <==> r.Ok? && codec.asAuth(r.value).Some?
                          && Decide(clients, now, hello, codec.asAuth(r.value).value).Accepted?
    ensures accepted ==>
              && Wrote(session.Some?, down.data, codec.accepted(Hex(random)))
              && (session.Some? ==> session.value == Hex(random))
              && (session.Some? <==> |codec.accepted(Hex(random))| <= MAX_MESSAGE_SIZE
                                     && old(down.budget) >= 4 + |codec.accepted(Hex(random))|)
    ensures !accepted ==>
              session.None? && (down.data == old(down.data) || exists ok :: Wrote(ok, down.data, codec.failed(FAILURE_REASON)))
  {
    var r := up.ReadMessage();
    if r.Err? {
      return None, false;
    }
    var ca := codec.asAuth(r.value);
    if ca.None? {
      return None, false;
    }
    var v := ValidateAuth(clients, idx, now, hello, ca.value);
    if !v.Accepted? {
      var ok := WriteTo(down, codec.failed(FAILURE_REASON));
      assert Wrote(ok, down.data, codec.failed(FAILURE_REASON));
      return None, false;
    }
    var sid := Hex(random);
    var ok := WriteTo(down, codec.accepted(sid));
    return if ok then Some(sid) else None, true;
  }

  /** The end of Client.runHandshake. */
  method ClientConcludes(down: Pipe, codec: Codec) returns (session: Option<Str>)
    modifies down`data, down`reach
    ensures session == Conclusion(codec, old(down.Arriving()))
  {
    var r := down.ReadMessage();
    if r.Err? {
      return None;
    }
    var sid := codec.asAccepted(r.value);
    if sid.None? || sid.value == [] {
      return None;
    }
    return sid;
  }

  /** What the client makes of the bytes that come back to it. */
  ghost function Conclusion(codec: Codec, bytes: Str): (session: Option<Str>)
  {
    var r := ReadFrame(bytes).outcome;
    if r.Ok? && codec.asAccepted(r.value).Some? && codec.asAccepted(r.value).value != []
    then codec.asAccepted(r.value) else None
  }

  /** The client concludes with the server's session exactly when there is one and its reply
    * arrives whole, although replies are not tagged. */
  lemma ReplyUnderstood(codec: Codec, session: Option<Str>, data: Str, reach: nat, random: Str, accepted: bool)
    requires RepliesRead(codec) && |random| == 12
    requires accepted ==> Wrote(session.Some?, data, codec.accepted(Hex(random))) && (session.Some? ==> session.value == Hex(random))
    requires !accepted ==> session.None? && (data == [] || exists ok :: Wrote(ok, data, codec.failed(FAILURE_REASON)))
    ensures Conclusion(codec, Upto(data, reach))
            == if session.Some? && reach >= 4 + |codec.accepted(Hex(random))| then session else None
  {
    HexIsHex(random);
    if accepted {
      ArrivesOrFails(session.Some?, data, codec.accepted(Hex(random)), reach);
    } else if data != [] {
      var ok :| Wrote(ok, data, codec.failed(FAILURE_REASON));
      ArrivesOrFails(ok, data, codec.failed(FAILURE_REASON), reach);
    } else {
      CutFrameFails([], []);
    }
  }

  /** The handshake once the ClientAuth body is written. */
  method AfterAuth(ghost clients: seq<ClientEntry>, idx: Index, codec: Codec, down: Pipe, up: Pipe,
                   hello: Hello, now: ClockSkew.Time, random: Str, ghost ok: bool, ghost body: Str)
    returns (server: Option<Str>, client: Option<Str>)
    requires UniqueIds(clients) && Indexes(clients, idx) && RepliesRead(codec)
    requires down != up && Wrote(ok, up.data, body) && down.data == [] && |random| == 12
    modifies down, up
    ensures server.Some? ==> server.value == Hex(random)
    ensures server.Some? <==> && ok && old(up.reach) >= 4 + |body| && codec.asAuth(body).Some?
                              && Decide(clients, now, hello, codec.asAuth(body).value).Accepted?
                              && |codec.accepted(Hex(random))| <= MAX_MESSAGE_SIZE
                              && old(down.budget) >= 4 + |codec.accepted(Hex(random))|
    ensures client == if server.Some? && old(down.reach) >= 4 + |codec.accepted(Hex(random))| then server else None
  {
    ArrivesOrFails(ok, up.data, body, up.reach);
    ghost var accepted;
    server, accepted := ServerReplies(clients, idx, up, down, codec, hello, now, random);
    ReplyUnderstood(codec, server, down.data, down.reach, random, accepted);
    client := ClientConcludes(down, codec);
  }

  /** The codec carries the hello and the answer unchanged, the network takes all three messages of
    * an accepted handshake, and the first two arrive. */
  ghost predicate Carried(codec: Codec, c: Peer, hello: Hello, theirs: Str, serverTime: Int64, time: Int64,
                          random: Str, downBudget: nat, downReach: nat, upBudget: nat, upReach: nat)
  {
    var h := codec.hello(hello.nonce, serverTime);
    var ca := Answer(c, hello.nonce, theirs, time);
    var ok := codec.accepted(Hex(random));
    && codec.asHello(h) == Some(hello.nonce) && codec.asAuth(codec.auth(ca)) == Some(ca)
    && |h| <= MAX_MESSAGE_SIZE && |codec.auth(ca)| <= MAX_MESSAGE_SIZE && |ok| <= MAX_MESSAGE_SIZE
    && downBudget >= 8 + |h| + |ok| && upBudget >= 4 + |codec.auth(ca)|
    && downReach >= 4 + |h| && upReach >= 4 + |codec.auth(ca)|
  }

  /** The handshake once the hello body h is written. */
  method AfterHello(ghost clients: seq<ClientEntry>, idx: Index, codec: Codec, down: Pipe, up: Pipe, c: Peer,
                    hello: Hello, theirs: Str, now: ClockSkew.Time, time: Int64, random: Str, ghost h: Str)
    returns (server: Option<Str>, client: Option<Str>)
    requires UniqueIds(clients) && Indexes(clients, idx) && RepliesRead(codec)
    requires down != up && Wrote(true, down.data, h) && up.data == [] && |random| == 12
    modifies down, up
    ensures server.Some? ==> server.value == Hex(random)
    ensures client == if server.Some? && old(down.reach) >= 8 + |h| + |codec.accepted(Hex(random))| then server else None
    ensures var ca := Answer(c, hello.nonce, theirs, time);
            var ok := codec.accepted(Hex(random));
            && codec.asHello(h) == Some(hello.nonce) && codec.asAuth(codec.auth(ca)) == Some(ca)
            && |codec.auth(ca)| <= MAX_MESSAGE_SIZE && |ok| <= MAX_MESSAGE_SIZE
            && old(down.budget) >= 4 + |ok| && old(up.budget) >= 4 + |codec.auth(ca)|
            && old(down.reach) >= 4 + |h| && old(up.reach) >= 4 + |codec.auth(ca)| ==>
              (server.Some? <==> Decide(clients, now, hello, ca).Accepted?)
  {
    ArrivesOrFails(true, down.data, h, down.reach);
    ghost var reach := down.reach;
    var sent := ClientAnswers(down, up, codec, c, theirs, time);
    ghost var greeted := reach >= 4 + |h| && codec.asHello(h).Some?;
    ghost var body := if greeted then codec.auth(Answer(c, codec.asHello(h).value, theirs, time)) else [];
    if sent.None? {
      server := ServerAlone(clients, idx, codec, down, up, hello, now, random, body);
      return server, None;
    }
    assert Wrote(true, up.data, body) && down.data == [];
    server, client := AfterAuth(clients, idx, codec, down, up, hello, now, random, true, body);
  }

  /** A client that has given up leaves a server that gives up. */
  method ServerAlone(ghost clients: seq<ClientEntry>, idx: Index, codec: Codec, down: Pipe, up: Pipe,
                     hello: Hello, now: ClockSkew.Time, random: Str, ghost body: Str)
    returns (server: Option<Str>)
    requires UniqueIds(clients) && Indexes(clients, idx)
    requires down != up && Wrote(false, up.data, body) && |random| == 12
    modifies down, up
    ensures server.None?
  {
    ArrivesOrFails(false, up.data, body, up.reach);
    ghost var accepted;
    server, accepted := ServerReplies(clients, idx, up, down, codec, hello, now, random);
  }

  /** A whole handshake. The client reports a session only if the server does, and the same one. A
    * session of the server is the client's too exactly when hello and reply arrive whole: nothing
    * tells the server. When the messages get to the server, it reports a session exactly when the
    * client is admissible and the exporters of the two ends agree. */
  method RunHandshake(ghost clients: seq<ClientEntry>, idx: Index, codec: Codec, down: Pipe, up: Pipe, c: Peer,
                      hello: Hello, theirs: Str, serverTime: Int64, now: ClockSkew.Time, time: Int64, random: Str)
    returns (server: Option<Str>, client: Option<Str>)
    requires UniqueIds(clients) && Indexes(clients, idx) && RepliesRead(codec)
    requires down != up && down.data == [] && up.data == []
    requires |random| == 12 && |hello.exporter| == EXPORTER_SIZE && |theirs| == EXPORTER_SIZE
    modifies down, up
    ensures client.Some? ==> server == client
    ensures server.Some? ==>
              && server.value == Hex(random) && |server.value| == 24
              && (client.Some? <==>
                    old(down.reach) >= 8 + |codec.hello(hello.nonce, serverTime)| + |codec.accepted(Hex(random))|)
    ensures Carried(codec, c, hello, theirs, serverTime, time, random,
                    old(down.budget), old(down.reach), old(up.budget), old(up.reach)) ==>
              (server.Some? <==> Admissible(clients, c, now, time) && hello.exporter == theirs)
  {
    var h := codec.hello(hello.nonce, serverTime);
    var greeted := WriteTo(down, h);
    if !greeted {
      ArrivesOrFails(false, down.data, h, down.reach);
      var sent := ClientAnswers(down, up, codec, c, theirs, time);
      return None, None;
    }
    HonestAnswerAcceptedIff(clients, now, c, hello.nonce, hello.exporter, theirs, time);
    server, client := AfterHello(clients, idx, codec, down, up, c, hello, theirs, now, time, random, h);
  }

  // ------------------------------------------------------------ a session only the server knows of

  /** A codec that will do for one answer. */
  function OneAnswer(ca: ClientAuth): (codec: Codec)
  {
    Codec((nonce, time) => nonce, text => Some(text), answer => [], text => Some(ca),
          sid => sid, reason => [], text => Some(text))
  }

  lemma OneAnswerCarries(c: Peer, hello: Hello, time: Int64, random: Str, arrives: nat)
    requires |random| == 12 && |hello.nonce| <= MAX_MESSAGE_SIZE
    ensures var codec := OneAnswer(Answer(c, hello.nonce, hello.exporter, time));
            && RepliesRead(codec)
            && |codec.hello(hello.nonce, 0)| + |codec.accepted(Hex(random))| == |hello.nonce| + 24
            && Carried(codec, c, hello, hello.exporter, 0, time, random, 32 + |hello.nonce|, 4 + |hello.nonce| + arrives, 4, 4)
  {}

  /** Any admissible client can lose the reply: the server then has a session and the client an
    * error, wherever in the reply the connection dies. */
  method ReplyCanBeLost(ghost clients: seq<ClientEntry>, idx: Index, c: Peer, hello: Hello, now: ClockSkew.Time,
                        time: Int64, random: Str, arrives: nat)
    returns (server: Option<Str>, client: Option<Str>)
    requires UniqueIds(clients) && Indexes(clients, idx) && Admissible(clients, c, now, time)
    requires |random| == 12 && |hello.exporter| == EXPORTER_SIZE && |hello.nonce| <= MAX_MESSAGE_SIZE
    requires arrives < 28
    ensures server == Some(Hex(random)) && client.None?
  {
    var codec := OneAnswer(Answer(c, hello.nonce, hello.exporter, time));
    var down := new Pipe([], 32 + |hello.nonce|, 4 + |hello.nonce| + arrives);
    var up := new Pipe([], 4, 4);
    OneAnswerCarries(c, hello, time, random, arrives);
    server, client := RunHandshake(clients, idx, codec, down, up, c, hello, hello.exporter, 0, now, time, random);
  }
}
