/** Agreement between clients and the server over whole runs, against a network that may deliver
  * any ClientAuth it can put together. */
module Agreement {
  import opened Bytes
  import opened SigningInput
  import opened Config
  import opened Handshake
  import opened SessionMachine
  import opened SessionInvariants
  import ServerGuarantees
  import ClockSkew
  import KeyText

  /** Who has an ML-DSA key: the Ed25519 key of the same client, and the services of its configuration. */
  datatype Owner = Owner(edKey: Str, services: map<Str, Str>)

  /** The configured clients, the machine's parameters, the keys whose owners do not keep to the
    * protocol, and what is known of the owners of ML-DSA keys, which may be nothing. */
  datatype Setup = Setup(clients: seq<ClientEntry>, p: Params, corruptEd: set<Str>, corruptPq: set<Str>,
                         owners: map<Str, Owner>)

  /** What ClientConfig.ServiceNames may return. */
  ghost predicate NamesOf(names: seq<Str>, services: map<Str, Str>)
  {
    NoDup(names) && forall n :: n in names <==> n in services
  }

  /** A client signs with both of its keys, and asks for its own services. */
  ghost predicate OwnersSign(w: Setup, edKey: Str, pqKey: Str, claim: PqClaim)
  {
    pqKey in w.owners ==> edKey == w.owners[pqKey].edKey && NamesOf(claim.services, w.owners[pqKey].services)
  }

  /** A client with this key signed this claim. */
  datatype EdRecord = EdRecord(key: Str, claim: Claim)
  datatype PqRecord = PqRecord(key: Str, claim: PqClaim)

  /** The server's machine, the hellos it sent, everything clients signed, and what it accepted. */
  datatype Sys = Sys(m: State, hellos: map<nat, Hello>, edLog: set<EdRecord>, pqLog: set<PqRecord>,
                     accepted: map<nat, ClientAuth>)

  const START: Sys := Sys(INIT, map[], {}, {}, map[])

  datatype Event =
    | Machine(step: Step)
    | SendHello(h: nat, hello: Hello)
    | ClientSigns(edKey: Str, pqKey: Str, claim: PqClaim)
    | AuthArrives(h: nat, ca: ClientAuth, now: ClockSkew.Time)

  /** The network has this Ed25519 signature: a client made it, its key is corrupt, or it is noise. */
  ghost predicate EdKnown(w: Setup, edLog: set<EdRecord>, sig: EdSig)
  {
    sig.EdMade? ==> sig.key in w.corruptEd || exists r :: r in edLog && r.key == sig.key && EdMessage(r.claim) == sig.msg
  }

  ghost predicate PqKnown(w: Setup, pqLog: set<PqRecord>, sig: PqSig)
  {
    sig.PqMade? ==>
      sig.key in w.corruptPq
      || exists r :: r in pqLog && r.key == sig.key && PqMessage(r.claim) == sig.msg && sig.context == PQ_AUTH_LABEL
  }

  ghost predicate IsHandshakeOk(step: Step)
  {
    step.Handle? && step.act.Private? && step.act.move.HandshakeOk?
  }

  ghost predicate Waiting(s: Sys, h: nat)
  {
    h < |s.m.handlers| && s.m.handlers[h].pc.Handshaking?
  }

  ghost predicate Possible(w: Setup, s: Sys, e: Event)
  {
    match e
    case Machine(step) => Enabled(w.p, s.m, step) && !IsHandshakeOk(step)
    case SendHello(h, hello) =>
      && Waiting(s, h) && h !in s.hellos
      && |hello.nonce| == NONCE_SIZE && |hello.exporter| == EXPORTER_SIZE
      && (forall g :: g in s.hellos ==> s.hellos[g].nonce != hello.nonce)      // fresh nonces
    case ClientSigns(edKey, pqKey, claim) =>
      Fits(claim) && |claim.claim.exporter| == EXPORTER_SIZE && OwnersSign(w, edKey, pqKey, claim)
    case AuthArrives(h, ca, now) =>
      && Waiting(s, h) && h in s.hellos
      && EdKnown(w, s.edLog, ca.signature) && PqKnown(w, s.pqLog, ca.pqSignature)
      && Fits(PqClaimOf(s.hellos[h].nonce, s.hellos[h].exporter, ca))           // it came in a frame
  }

  ghost function Happen(w: Setup, s: Sys, e: Event): (t: Sys)
    requires Possible(w, s, e)
  {
    match e
    case Machine(step) => s.(m := Apply(w.p, s.m, step))
    case SendHello(h, hello) => s.(hellos := s.hellos[h := hello])
    case ClientSigns(edKey, pqKey, claim) =>
      s.(edLog := s.edLog + {EdRecord(edKey, claim.claim)}, pqLog := s.pqLog + {PqRecord(pqKey, claim)})
    case AuthArrives(h, ca, now) =>
      if Decide(w.clients, now, s.hellos[h], ca).Accepted?
      then s.(m := Apply(w.p, s.m, Handle(h, Private(HandshakeOk(ca.id, ca.requested)))), accepted := s.accepted[h := ca])
      else s.(m := Apply(w.p, s.m, Handle(h, Private(HandshakeFails))))
  }

  ghost predicate Trace(w: Setup, s: Sys, es: seq<Event>, t: Sys)
    decreases |es|
  {
    if es == [] then s == t else Possible(w, s, es[0]) && Trace(w, Happen(w, s, es[0]), es[1..], t)
  }

  // ------------------------------------------------------------ what every trace keeps

  /** The entry under which the server knows the client. */
  ghost predicate Known(w: Setup, id: Str)
  {
    FindClient(w.clients, id) != -1
  }

  ghost function EntryOf(w: Setup, id: Str): (c: ClientEntry)
    requires Known(w, id)
  {
    w.clients[FindClient(w.clients, id)]
  }

  /** The signatures of an accepted ClientAuth are by listed keys over the claims it makes on this
    * connection, and the network did not make them up. */
  ghost predicate Vouched(w: Setup, edLog: set<EdRecord>, pqLog: set<PqRecord>, hello: Hello, ca: ClientAuth)
  {
    && Known(w, ca.id)
    && ca.signature.EdMade? && ca.signature.msg == EdMessage(ClaimOf(hello.nonce, hello.exporter, ca))
    && EdKeyOf(EntryOf(w, ca.id), ca.signature.key) && EdKnown(w, edLog, ca.signature)
    && ca.pqSignature.PqMade? && ca.pqSignature.msg == PqMessage(PqClaimOf(hello.nonce, hello.exporter, ca))
    && PqKeyOf(EntryOf(w, ca.id), ca.pqSignature.key) && PqKnown(w, pqLog, ca.pqSignature)
    && Fits(PqClaimOf(hello.nonce, hello.exporter, ca))
    && ca.requested != [] && ca.pqAlgorithm == Lit("mldsa")
    && (forall i :: 0 <= i < |ca.requested| ==> Offers(EntryOf(w, ca.id), ca.requested[i]))
  }

  ghost predicate HelloOk(s: Sys, h: nat)
    requires h in s.hellos
  {
    && h < |s.m.handlers| && |s.hellos[h].nonce| == NONCE_SIZE && |s.hellos[h].exporter| == EXPORTER_SIZE
    && forall g :: g in s.hellos && g != h ==> s.hellos[g].nonce != s.hellos[h].nonce
  }

  ghost predicate AcceptedOk(w: Setup, s: Sys, h: nat)
    requires h in s.accepted
  {
    && h in s.hellos && h < |s.m.handlers| && !s.m.handlers[h].pc.Handshaking?
    && Vouched(w, s.edLog, s.pqLog, s.hellos[h], s.accepted[h])
    && s.m.handlers[h].client == s.accepted[h].id && s.m.handlers[h].requested == s.accepted[h].requested
  }

  /** Whoever is past the handshake without having given up was accepted; nobody else has a request. */
  ghost predicate PastIsAccepted(s: Sys, h: nat)
    requires h < |s.m.handlers|
  {
    var x := s.m.handlers[h];
    h in s.accepted || (x.requested == [] && (x.pc.Handshaking? || x.pc.Exiting? || x.pc.Done?))
  }

  ghost predicate SysInv(w: Setup, s: Sys)
  {
    && Reachable(w.p, s.m)
    && (forall h :: h in s.hellos ==> HelloOk(s, h))
    && (forall h :: h in s.accepted ==> AcceptedOk(w, s, h))
    && (forall h :: 0 <= h < |s.m.handlers| ==> PastIsAccepted(s, h))
  }

  /** Signature logs only grow. */
  lemma VouchedStays(w: Setup, s: Sys, t: Sys, hello: Hello, ca: ClientAuth)
    requires Vouched(w, s.edLog, s.pqLog, hello, ca) && s.edLog <= t.edLog && s.pqLog <= t.pqLog
    ensures Vouched(w, t.edLog, t.pqLog, hello, ca)
  {
    if ca.signature.key !in w.corruptEd {
      var r :| r in s.edLog && r.key == ca.signature.key && EdMessage(r.claim) == ca.signature.msg;
      assert r in t.edLog;
    }
    if ca.pqSignature.key !in w.corruptPq {
      var r :| r in s.pqLog && r.key == ca.pqSignature.key && PqMessage(r.claim) == ca.pqSignature.msg
               && ca.pqSignature.context == PQ_AUTH_LABEL;
      assert r in t.pqLog;
    }
  }

  /** Machine steps keep the identity of handlers that are past the handshake, and bring none past it. */
  ghost predicate HandlersKept(m: State, n: State)
  {
    && |n.handlers| >= |m.handlers|
    && (forall h :: 0 <= h < |m.handlers| ==> IdentityKept(m.handlers[h], n.handlers[h]))
    && (forall h :: |m.handlers| <= h < |n.handlers| ==> n.handlers[h].pc.Handshaking? && n.handlers[h].requested == [])
  }

  ghost predicate IdentityKept(x: Handler, y: Handler)
  {
    && y.client == x.client && y.requested == x.requested && (!x.pc.Handshaking? ==> !y.pc.Handshaking?)
    && (x.pc.Handshaking? || x.pc.Exiting? || x.pc.Done? ==> y.pc.Handshaking? || y.pc.Exiting? || y.pc.Done?)
  }

  lemma MoveKeepsIdentity(p: Params, x: Handler, move: Move)
    requires MoveEnabled(p, x, move) && !move.HandshakeOk?
    ensures IdentityKept(x, Moved(p, x, move))
  {}

  lemma PutKeeps(m: State, n: State, h: nat)
    requires h < |m.handlers| == |n.handlers| && n.handlers == m.handlers[h := n.handlers[h]]
    requires IdentityKept(m.handlers[h], n.handlers[h])
    ensures HandlersKept(m, n)
  {}

  lemma DisplacedKeeps(m: State, n: State, h: nat)
    requires h < |m.handlers| && IsDisplacing(m.handlers[h].pc) && Displaced(m, n, h)
    ensures HandlersKept(m, n)
  {
    forall i | 0 <= i < |m.handlers| ensures IdentityKept(m.handlers[i], n.handlers[i]) {
      assert SameButFlags(m.handlers[i], n.handlers[i]);
    }
  }

  lemma PcKeeps(m: State, n: State, h: nat, act: Act)
    requires h < |m.handlers| && PcMoved(m, n, h) && MovesOnlyPc(act) && Leads(act, m.handlers[h].pc, n.handlers[h].pc)
    ensures HandlersKept(m, n)
  {
    PutKeeps(m, n, h);
  }

  lemma ActKeeps(p: Params, m: State, h: nat, act: Act)
    requires h < |m.handlers| && ActEnabled(p, m, h, act) && !IsHandshakeOk(Handle(h, act))
    ensures HandlersKept(m, ActApply(p, m, h, act))
  {
    var x := m.handlers[h];
    match act
    case Private(move) =>
      MoveKeepsIdentity(p, x, move);
      PutKeeps(m, Put(m, h, Moved(p, x, move)), h);
    case ReleaseToken => PutKeeps(m, Release(m, h, TokenReturned), h);
    case Displace =>
      DisplaceEffect(m, h);
      DisplacedKeeps(m, DisplaceStep(m, h), h);
    case Exit =>
      if x.semHeld {
        PutKeeps(m, Release(m, h, Done), h);
      } else {
        PutKeeps(m, Goto(m, h, Done), h);
      }
    case _ =>
      PcEffect(p, m, h, act);
      PcKeeps(m, ActApply(p, m, h, act), h, act);
  }

  lemma StepKeeps(p: Params, m: State, step: Step)
    requires Enabled(p, m, step) && !IsHandshakeOk(step)
    ensures HandlersKept(m, Apply(p, m, step))
  {
    match step
    case Handle(h, act) => ActKeeps(p, m, h, act);
    case Serve(x, deed) => DeedKeepsHandlers(p, m, x, deed);
    case _ =>
  }

  lemma SysKept(w: Setup, s: Sys, t: Sys)
    requires SysInv(w, s) && Reachable(w.p, t.m) && HandlersKept(s.m, t.m)
    requires t.hellos == s.hellos && t.accepted == s.accepted && s.edLog <= t.edLog && s.pqLog <= t.pqLog
    ensures SysInv(w, t)
  {
    forall h | h in t.hellos ensures HelloOk(t, h) {
      assert HelloOk(s, h);
    }
    forall h | h in t.accepted ensures AcceptedOk(w, t, h) {
      assert AcceptedOk(w, s, h) && IdentityKept(s.m.handlers[h], t.m.handlers[h]);
      VouchedStays(w, s, t, s.hellos[h], s.accepted[h]);
    }
    forall h | 0 <= h < |t.m.handlers| ensures PastIsAccepted(t, h) {
      if h < |s.m.handlers| {
        assert PastIsAccepted(s, h) && IdentityKept(s.m.handlers[h], t.m.handlers[h]);
      }
    }
  }

  lemma HelloAdded(s: Sys, t: Sys, h: nat, hello: Hello)
    requires h !in s.hellos && t.m == s.m && t.hellos == s.hellos[h := hello] && h < |s.m.handlers|
    requires |hello.nonce| == NONCE_SIZE && |hello.exporter| == EXPORTER_SIZE
    requires forall g :: g in s.hellos ==> s.hellos[g].nonce != hello.nonce
    requires forall g :: g in s.hellos ==> HelloOk(s, g)
    ensures forall g :: g in t.hellos ==> HelloOk(t, g)
  {
    forall g | g in t.hellos ensures HelloOk(t, g) {
      if g != h {
        assert HelloOk(s, g);
      }
    }
  }

  lemma SysHello(w: Setup, s: Sys, t: Sys, h: nat, hello: Hello)
    requires SysInv(w, s) && Possible(w, s, SendHello(h, hello)) && t == s.(hellos := s.hellos[h := hello])
    ensures SysInv(w, t)
  {
    HelloAdded(s, t, h, hello);
    forall g | g in t.accepted ensures AcceptedOk(w, t, g) {
      assert AcceptedOk(w, s, g) && g != h;
    }
    forall g | 0 <= g < |t.m.handlers| ensures PastIsAccepted(t, g) {
      assert PastIsAccepted(s, g);
    }
  }

  /** Acceptance by the server's decision vouches for the ClientAuth. */
  lemma AcceptedIsVouched(w: Setup, s: Sys, h: nat, ca: ClientAuth, now: ClockSkew.Time)
    requires Possible(w, s, AuthArrives(h, ca, now)) && Decide(w.clients, now, s.hellos[h], ca).Accepted?
    ensures Vouched(w, s.edLog, s.pqLog, s.hellos[h], ca)
  {
    var c := EntryOf(w, ca.id);
    assert EdListed(c, s.hellos[h], ca) && PqListed(c, s.hellos[h], ca);
    var k, key :| 0 <= k < |c.pubkeys|
      && Reads(c.pubkeys[k], KeyText.PUBKEY_PREFIX, KeyText.ED25519_KEY_SIZE, key)
      && EdVerifies(key, EdMessage(ClaimOf(s.hellos[h].nonce, s.hellos[h].exporter, ca)), ca.signature);
    var k', key' :| 0 <= k' < |c.pqPubkeys|
      && Reads(c.pqPubkeys[k'], KeyText.PQ_PUBKEY_PREFIX, KeyText.MLDSA_KEY_SIZE, key')
      && PqVerifies(key', PqMessage(PqClaimOf(s.hellos[h].nonce, s.hellos[h].exporter, ca)), PQ_AUTH_LABEL, ca.pqSignature);
  }

  lemma SysAccept(w: Setup, s: Sys, h: nat, ca: ClientAuth, now: ClockSkew.Time)
    requires SysInv(w, s) && Possible(w, s, AuthArrives(h, ca, now)) && Decide(w.clients, now, s.hellos[h], ca).Accepted?
    ensures SysInv(w, Happen(w, s, AuthArrives(h, ca, now)))
  {
    var t := Happen(w, s, AuthArrives(h, ca, now));
    var step := Handle(h, Private(HandshakeOk(ca.id, ca.requested)));
    ReachStep(w.p, s.m, step);
    AcceptedIsVouched(w, s, h, ca, now);
    forall g | g in t.hellos ensures HelloOk(t, g) {
      assert HelloOk(s, g);
    }
    forall g | g in t.accepted ensures AcceptedOk(w, t, g) {
      if g != h {
        assert AcceptedOk(w, s, g);
      }
    }
    forall g | 0 <= g < |t.m.handlers| ensures PastIsAccepted(t, g) {
      assert PastIsAccepted(s, g);
    }
  }

  lemma SysStep(w: Setup, s: Sys, e: Event)
    requires SysInv(w, s) && Possible(w, s, e)
    ensures SysInv(w, Happen(w, s, e))
  {
    match e
    case Machine(step) =>
      ReachStep(w.p, s.m, step);
      StepKeeps(w.p, s.m, step);
      SysKept(w, s, Happen(w, s, e));
    case SendHello(h, hello) => SysHello(w, s, Happen(w, s, e), h, hello);
    case ClientSigns(_, _, _) => SysKept(w, s, Happen(w, s, e));
    case AuthArrives(h, ca, now) =>
      if Decide(w.clients, now, s.hellos[h], ca).Accepted? {
        SysAccept(w, s, h, ca, now);
      } else {
        var step := Handle(h, Private(HandshakeFails));
        ReachStep(w.p, s.m, step);
        StepKeeps(w.p, s.m, step);
        SysKept(w, s, Happen(w, s, e));
      }
  }

  lemma {:induction false} SysTrace(w: Setup, s: Sys, es: seq<Event>, t: Sys)
    requires SysInv(w, s) && Trace(w, s, es, t)
    ensures SysInv(w, t)
    decreases |es|
  {
    if es != [] {
      SysStep(w, s, es[0]);
      SysTrace(w, Happen(w, s, es[0]), es[1..], t);
    }
  }

  ghost predicate Reached(w: Setup, s: Sys)
  {
    exists es :: Trace(w, START, es, s)
  }

  lemma SysReached(w: Setup, s: Sys)
    requires Reached(w, s)
    ensures SysInv(w, s)
  {
    var es :| Trace(w, START, es, s);
    assert Reachable(w.p, INIT) by {
      assert ValidRun(w.p, INIT, []) && Exec(w.p, INIT, []) == INIT;
    }
    SysTrace(w, START, es, s);
  }

  // ------------------------------------------------------------ agreement

  /** A listed Ed25519 key whose owner keeps to the protocol signed this very message, and what it
    * signed was exactly this nonce, exporter, id and time if and only if the nonce it answered had
    * the size the server uses; the client itself does not check that size. */
  ghost predicate EdAgreed(w: Setup, s: Sys, hello: Hello, ca: ClientAuth)
  {
    Known(w, ca.id) &&
    exists key :: EdKeyOf(EntryOf(w, ca.id), key) &&
      (key in w.corruptEd ||
       exists r :: r in s.edLog && r.key == key
         && EdMessage(r.claim) == EdMessage(ClaimOf(hello.nonce, hello.exporter, ca))
         && (|r.claim.nonce| == NONCE_SIZE <==> r.claim == ClaimOf(hello.nonce, hello.exporter, ca)))
  }

  /** A listed ML-DSA key whose owner keeps to the protocol signed the same fields and this list of
    * services. */
  ghost predicate PqAgreed(w: Setup, s: Sys, hello: Hello, ca: ClientAuth)
  {
    Known(w, ca.id) &&
    exists key :: PqKeyOf(EntryOf(w, ca.id), key) &&
      (key in w.corruptPq || PqRecord(key, PqClaimOf(hello.nonce, hello.exporter, ca)) in s.pqLog)
  }

  /** What is in the logs was signed by clients: both keys of an owner over one claim. */
  ghost predicate LogFits(w: Setup, s: Sys)
  {
    && (forall r :: r in s.pqLog ==> Fits(r.claim))
    && (forall r :: r in s.edLog ==> |r.claim.exporter| == EXPORTER_SIZE)
    && (forall r :: r in s.pqLog && r.key in w.owners ==>
          EdRecord(w.owners[r.key].edKey, r.claim.claim) in s.edLog && NamesOf(r.claim.services, w.owners[r.key].services))
  }

  lemma {:induction false} LogFitsTrace(w: Setup, s: Sys, es: seq<Event>, t: Sys)
    requires LogFits(w, s) && Trace(w, s, es, t)
    ensures LogFits(w, t)
    decreases |es|
  {
    if es != [] {
      LogFitsTrace(w, Happen(w, s, es[0]), es[1..], t);
    }
  }

  lemma LogReached(w: Setup, s: Sys)
    requires Reached(w, s)
    ensures LogFits(w, s)
  {
    var es :| Trace(w, START, es, s);
    LogFitsTrace(w, START, es, s);
  }

  /** If the server accepted, clients signed just that. Each half needs only its own scheme's keys
    * to be in good hands. */
  lemma AcceptanceAgreement(w: Setup, s: Sys, h: nat)
    requires Reached(w, s) && h in s.accepted
    ensures h in s.hellos && EdAgreed(w, s, s.hellos[h], s.accepted[h]) && PqAgreed(w, s, s.hellos[h], s.accepted[h])
  {
    SysReached(w, s);
    LogReached(w, s);
    assert AcceptedOk(w, s, h) && HelloOk(s, h);
    var hello, ca := s.hellos[h], s.accepted[h];
    var claim := ClaimOf(hello.nonce, hello.exporter, ca);
    var ed, pq := ca.signature.key, ca.pqSignature.key;
    if ed !in w.corruptEd {
      var r :| r in s.edLog && r.key == ed && EdMessage(r.claim) == EdMessage(claim);
      if |r.claim.nonce| == NONCE_SIZE {
        EdInjective(r.claim, claim);
      }
    }
    assert EdKeyOf(EntryOf(w, ca.id), ed);
    if pq !in w.corruptPq {
      var r :| r in s.pqLog && r.key == pq && PqMessage(r.claim) == PqMessage(PqClaimOf(hello.nonce, hello.exporter, ca));
      PqInjective(r.claim, PqClaimOf(hello.nonce, hello.exporter, ca));
      assert r == PqRecord(pq, PqClaimOf(hello.nonce, hello.exporter, ca));
    }
    assert PqKeyOf(EntryOf(w, ca.id), pq);
  }

  /** Wherever a client may use an ML-DSA key, it may use the Ed25519 key that goes with it. */
  ghost predicate KeysPaired(w: Setup)
  {
    forall i, key :: 0 <= i < |w.clients| && key in w.owners && PqKeyOf(w.clients[i], key) ==>
      EdKeyOf(w.clients[i], w.owners[key].edKey)
  }

  /** If the accepted ML-DSA key is in the hands of its owner, that client signed, with both of its
    * keys, exactly this nonce, exporter, id and time, whatever nonces it has ever seen; both keys are
    * listed; and the service list is that of its own configuration. */
  lemma OwnerAgreement(w: Setup, s: Sys, h: nat)
    requires Reached(w, s) && h in s.accepted && s.accepted[h].pqSignature.PqMade?
    requires var key := s.accepted[h].pqSignature.key; key !in w.corruptPq && key in w.owners
    ensures h in s.hellos && Known(w, s.accepted[h].id)
    ensures var ca, hello := s.accepted[h], s.hellos[h];
            var key, owner := ca.pqSignature.key, w.owners[ca.pqSignature.key];
            && PqRecord(key, PqClaimOf(hello.nonce, hello.exporter, ca)) in s.pqLog
            && EdRecord(owner.edKey, ClaimOf(hello.nonce, hello.exporter, ca)) in s.edLog
            && PqKeyOf(EntryOf(w, ca.id), key) && (KeysPaired(w) ==> EdKeyOf(EntryOf(w, ca.id), owner.edKey))
            && NamesOf(ca.requested, owner.services)
  {
    SysReached(w, s);
    LogReached(w, s);
    assert AcceptedOk(w, s, h) && HelloOk(s, h);
    var hello, ca := s.hellos[h], s.accepted[h];
    var key := ca.pqSignature.key;
    var r :| r in s.pqLog && r.key == key && PqMessage(r.claim) == PqMessage(PqClaimOf(hello.nonce, hello.exporter, ca));
    PqInjective(r.claim, PqClaimOf(hello.nonce, hello.exporter, ca));
    assert r == PqRecord(key, PqClaimOf(hello.nonce, hello.exporter, ca));
  }

  /** The service an Open header names is one that the client on the other end has a target for, if
    * its ML-DSA key is in the hands of its owner. */
  lemma HonestLookupHits(w: Setup, s: Sys, k: nat)
    requires Reached(w, s) && k < |s.m.headers|
    ensures s.m.headers[k].owner in s.accepted
    ensures var ca := s.accepted[s.m.headers[k].owner];
            && ca.pqSignature.PqMade?
            && (ca.pqSignature.key !in w.corruptPq && ca.pqSignature.key in w.owners ==>
                  s.m.headers[k].service in w.owners[ca.pqSignature.key].services)
  {
    SysReached(w, s);
    ServerGuarantees.HeadersNameRequested(w.p, s.m, k);
    var h := s.m.headers[k].owner;
    assert PastIsAccepted(s, h);
    assert AcceptedOk(w, s, h);
    var ca := s.accepted[h];
    if ca.pqSignature.key !in w.corruptPq && ca.pqSignature.key in w.owners {
      OwnerAgreement(w, s, h);
    }
  }

  /** No ClientAuth, not even one of its signatures, is accepted in two handshakes. */
  lemma AcceptanceIsInjective(w: Setup, s: Sys, h: nat, g: nat)
    requires Reached(w, s) && h in s.accepted && g in s.accepted && h != g
    ensures s.accepted[h].signature != s.accepted[g].signature
    ensures s.accepted[h].pqSignature != s.accepted[g].pqSignature
  {
    SysReached(w, s);
    assert AcceptedOk(w, s, h) && AcceptedOk(w, s, g) && HelloOk(s, h) && HelloOk(s, g);
    var a, b := s.accepted[h], s.accepted[g];
    var c, d := ClaimOf(s.hellos[h].nonce, s.hellos[h].exporter, a), ClaimOf(s.hellos[g].nonce, s.hellos[g].exporter, b);
    if a.signature == b.signature {
      EdInjective(c, d);
    }
    if a.pqSignature == b.pqSignature {
      PqInjective(PqClaim(c, a.requested), PqClaim(d, b.requested));
    }
  }

  /** Every open service listener goes back to an accepted handshake whose ClientAuth asked for that
    * service, and the whole service list was signed for that very connection. */
  lemma ListenerIsAuthorised(w: Setup, s: Sys, l: nat)
    requires Reached(w, s) && l < |s.m.listeners| && s.m.listeners[l].open
    ensures var h := s.m.listeners[l].owner;
            && h in s.accepted && h in s.hellos && h < |s.m.handlers|
            && s.m.listeners[l].service in s.accepted[h].requested
            && s.m.handlers[h].requested == s.accepted[h].requested
            && PqAgreed(w, s, s.hellos[h], s.accepted[h])
  {
    SysReached(w, s);
    ServerGuarantees.ListenerOwnership(w.p, s.m, l);
    var h := s.m.listeners[l].owner;
    assert PastIsAccepted(s, h);
    assert AcceptedOk(w, s, h);
    AcceptanceAgreement(w, s, h);
  }
}
