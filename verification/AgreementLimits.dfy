/** A run in which agreement on the Ed25519 fields fails: the message is right, the fields are not. */
module AgreementLimits {
  import opened Bytes
  import opened SigningInput
  import opened Config
  import opened Handshake
  import opened Exchange
  import opened SessionMachine
  import opened Agreement
  import ClockSkew
  import KeyText

  lemma {:induction false} TraceExtends(w: Setup, s: Sys, es: seq<Event>, t: Sys, e: Event)
    requires Trace(w, s, es, t) && Possible(w, t, e)
    ensures Trace(w, s, es + [e], Happen(w, t, e))
    decreases |es|
  {
    if es == [] {
      assert es + [e] == [e] && [e][1..] == [];
      assert Trace(w, Happen(w, s, e), [], Happen(w, t, e));
    } else {
      TraceExtends(w, Happen(w, s, es[0]), es[1..], t, e);
      assert (es + [e])[1..] == es[1..] + [e];
    }
  }

  lemma ReachEvent(w: Setup, s: Sys, e: Event)
    requires Reached(w, s) && Possible(w, s, e)
    ensures Reached(w, Happen(w, s, e))
  {
    var es :| Trace(w, START, es, s);
    TraceExtends(w, START, es, s, e);
  }

  /** A configuration that lists one key of each kind for one client with one service. */
  function OneClient(c: Peer, addr: Str): (clients: seq<ClientEntry>)
    requires |c.requested| == 1
  {
    [ClientEntry(c.id, [KeyText.EncodeKey(KeyText.PUBKEY_PREFIX, c.edKey)],
                 [KeyText.EncodeKey(KeyText.PQ_PUBKEY_PREFIX, c.pqKey)], [ServiceEntry(c.requested[0], addr, [])])]
  }

  lemma OneClientAdmitted(c: Peer, addr: Str, now: ClockSkew.Time, time: Int64)
    requires |c.requested| == 1 && |c.edKey| == KeyText.ED25519_KEY_SIZE && |c.pqKey| == KeyText.MLDSA_KEY_SIZE
    requires ClockSkew.WithinWindow(now, time)
    ensures Admissible(OneClient(c, addr), c, now, time) && EdKeyOf(OneClient(c, addr)[0], c.edKey)
    ensures FindClient(OneClient(c, addr), c.id) == 0
  {
    var e := OneClient(c, addr)[0];
    KeyText.KeyRoundTrip(KeyText.PUBKEY_PREFIX, c.edKey, c.edKey);
    KeyText.KeyRoundTrip(KeyText.PQ_PUBKEY_PREFIX, c.pqKey, c.pqKey);
    assert Reads(e.pubkeys[0], KeyText.PUBKEY_PREFIX, KeyText.ED25519_KEY_SIZE, c.edKey);
    assert Reads(e.pqPubkeys[0], KeyText.PQ_PUBKEY_PREFIX, KeyText.MLDSA_KEY_SIZE, c.pqKey);
    assert e.services[0].name == c.requested[0];
  }

  /** The fields with one byte moved from each to the one before. */
  function Shifted(c: Claim): (d: Claim)
    requires c.exporter != [] && c.id != []
  {
    Claim(c.nonce + c.exporter[..1], c.exporter[1..] + c.id[..1], c.id[1..], c.time)
  }

  lemma ShiftedSpellsTheSame(c: Claim)
    requires c.exporter != [] && c.id != []
    ensures EdMessage(Shifted(c)) == EdMessage(c) && Shifted(c) != c && |Shifted(c).exporter| == |c.exporter|
  {
    var d := Shifted(c);
    assert d.nonce + d.exporter + d.id == c.nonce + c.exporter + c.id;
    assert |d.nonce| == |c.nonce| + 1;
  }

  /** The log before the ClientAuth arrives: c's Ed25519 key signed the shifted fields, c's ML-DSA key
    * the right ones, each together with a key that is not listed. */
  ghost function Signed(hello: Hello, c: Peer, time: Int64, ed: Str, pq: Str): (s: Sys)
    requires hello.exporter != [] && c.id != []
  {
    var claim := Claim(hello.nonce, hello.exporter, c.id, time);
    Sys(INIT.(tokens := 1, handlers := [NEW_HANDLER]), map[0 := hello],
        {EdRecord(c.edKey, Shifted(claim)), EdRecord(ed, claim)},
        {PqRecord(pq, PqClaim(Shifted(claim), c.requested)), PqRecord(c.pqKey, PqClaim(claim, c.requested))}, map[])
  }

  ghost predicate Sized(hello: Hello, c: Peer)
  {
    && |hello.nonce| == NONCE_SIZE && |hello.exporter| == EXPORTER_SIZE
    && 0 < |c.id| < TWO_32 && |c.requested| == 1 && |c.requested[0]| < TWO_32
  }

  /** One connection, to which the hello was sent. */
  ghost function Greeted(hello: Hello): (s: Sys)
  {
    START.(m := INIT.(tokens := 1, handlers := [NEW_HANDLER]), hellos := map[0 := hello])
  }

  lemma GreetedIsReached(w: Setup, hello: Hello)
    requires |hello.nonce| == NONCE_SIZE && |hello.exporter| == EXPORTER_SIZE
    ensures Reached(w, Greeted(hello))
  {
    assert Trace(w, START, [], START);
    ReachEvent(w, START, Machine(ConnArrives));
    var s := START.(m := INIT.(tokens := 1, handlers := [NEW_HANDLER]));
    assert [] + [NEW_HANDLER] == [NEW_HANDLER];
    assert Happen(w, START, Machine(ConnArrives)) == s;
    ReachEvent(w, s, SendHello(0, hello));
    assert Happen(w, s, SendHello(0, hello)) == Greeted(hello);
  }

  lemma SignReached(w: Setup, s: Sys, edKey: Str, pqKey: Str, claim: PqClaim)
    requires w.owners == map[] && Reached(w, s) && Fits(claim) && |claim.claim.exporter| == EXPORTER_SIZE
    ensures Reached(w, s.(edLog := s.edLog + {EdRecord(edKey, claim.claim)}, pqLog := s.pqLog + {PqRecord(pqKey, claim)}))
  {
    ReachEvent(w, s, ClientSigns(edKey, pqKey, claim));
  }

  lemma SignedIsReached(w: Setup, hello: Hello, c: Peer, time: Int64, ed: Str, pq: Str)
    requires w.owners == map[] && Sized(hello, c)
    ensures Reached(w, Signed(hello, c, time, ed, pq))
  {
    var claim := Claim(hello.nonce, hello.exporter, c.id, time);
    ShiftedSpellsTheSame(claim);
    var wrong, right := PqClaim(Shifted(claim), c.requested), PqClaim(claim, c.requested);
    GreetedIsReached(w, hello);
    SignReached(w, Greeted(hello), c.edKey, pq, wrong);
    var s := Greeted(hello).(edLog := {} + {EdRecord(c.edKey, wrong.claim)}, pqLog := {} + {PqRecord(pq, wrong)});
    SignReached(w, s, ed, c.pqKey, right);
    var t := s.(edLog := s.edLog + {EdRecord(ed, claim)}, pqLog := s.pqLog + {PqRecord(c.pqKey, right)});
    assert t.edLog == Signed(hello, c, time, ed, pq).edLog && t.pqLog == Signed(hello, c, time, ed, pq).pqLog;
  }

  /** Without knowing whose keys go together: a listed Ed25519 key in good hands can stand behind an
    * acceptance although its owner only ever signed other fields, because it answered a nonce of
    * another size. */
  lemma EdFieldsCanDiffer(p: Params, c: Peer, addr: Str, hello: Hello, now: ClockSkew.Time, time: Int64, ed: Str, pq: Str)
    requires Sized(hello, c) && |c.edKey| == KeyText.ED25519_KEY_SIZE && |c.pqKey| == KeyText.MLDSA_KEY_SIZE
    requires ed != c.edKey && ClockSkew.WithinWindow(now, time)
    ensures exists w, s :: Reached(w, s) && w.corruptEd == {} && w.corruptPq == {} && 0 in s.accepted && 0 in s.hellos
              && Known(w, s.accepted[0].id) && EdKeyOf(EntryOf(w, s.accepted[0].id), c.edKey)
              && s.accepted[0].signature.EdMade? && s.accepted[0].signature.key == c.edKey
              && forall r :: r in s.edLog && r.key == c.edKey ==>
                   r.claim != ClaimOf(s.hellos[0].nonce, s.hellos[0].exporter, s.accepted[0])
  {
    var w := Setup(OneClient(c, addr), p, {}, {}, map[]);
    SignedIsReached(w, hello, c, time, ed, pq);
    OneClientAdmitted(c, addr, now, time);
    var t := AnswerIsAccepted(w, hello, c, now, time, ed, pq);
    ShiftedSpellsTheSame(Claim(hello.nonce, hello.exporter, c.id, time));
  }

  lemma AnswerIsAccepted(w: Setup, hello: Hello, c: Peer, now: ClockSkew.Time, time: Int64, ed: Str, pq: Str)
    returns (t: Sys)
    requires Sized(hello, c) && Reached(w, Signed(hello, c, time, ed, pq)) && Admissible(w.clients, c, now, time)
    ensures Reached(w, t) && t.accepted == map[0 := Answer(c, hello.nonce, hello.exporter, time)]
    ensures t.edLog == Signed(hello, c, time, ed, pq).edLog && t.hellos == map[0 := hello]
  {
    HonestAnswerAcceptedIff(w.clients, now, c, hello.nonce, hello.exporter, hello.exporter, time);
    AnswerIsKnown(w, hello, c, time, ed, pq);
    var e := AuthArrives(0, Answer(c, hello.nonce, hello.exporter, time), now);
    ReachEvent(w, Signed(hello, c, time, ed, pq), e);
    t := Happen(w, Signed(hello, c, time, ed, pq), e);
  }

  lemma AnswerIsKnown(w: Setup, hello: Hello, c: Peer, time: Int64, ed: Str, pq: Str)
    requires Sized(hello, c)
    ensures var s, ca := Signed(hello, c, time, ed, pq), Answer(c, hello.nonce, hello.exporter, time);
            && EdKnown(w, s.edLog, ca.signature) && PqKnown(w, s.pqLog, ca.pqSignature)
            && Fits(PqClaimOf(hello.nonce, hello.exporter, ca))
  {
    var claim := Claim(hello.nonce, hello.exporter, c.id, time);
    ShiftedSpellsTheSame(claim);
    var s := Signed(hello, c, time, ed, pq);
    assert EdRecord(c.edKey, Shifted(claim)) in s.edLog;
    assert PqRecord(c.pqKey, PqClaim(claim, c.requested)) in s.pqLog;
  }
}
