/** An honest client in the traces of the system: its answer is a signing, and the server takes it in. */
module HonestClient {
  import opened Bytes
  import opened SigningInput
  import opened Config
  import opened Handshake
  import opened Exchange
  import opened SessionMachine
  import opened Agreement
  import AgreementLimits
  import ClockSkew

  /** The client asks for the names of its configuration, and owns the two keys it signs with. */
  ghost predicate Honest(w: Setup, c: Peer, services: map<Str, Str>)
  {
    NamesOf(c.requested, services) && (c.pqKey in w.owners ==> w.owners[c.pqKey] == Owner(c.edKey, services))
  }

  /** The answer of a client that asks for the names of its configuration is a signing that owners
    * may do, and puts both its signatures into the network's hands. */
  lemma AnswerIsSigning(w: Setup, s: Sys, c: Peer, services: map<Str, Str>, nonce: Str, exporter: Str, time: Int64)
    requires Honest(w, c, services) && |exporter| == EXPORTER_SIZE
    requires Fits(PqClaim(Claim(nonce, exporter, c.id, time), c.requested))
    ensures var ca := Answer(c, nonce, exporter, time);
            var e := ClientSigns(c.edKey, c.pqKey, PqClaim(Claim(nonce, exporter, ca.id, ca.time), ca.requested));
            && Possible(w, s, e)
            && EdKnown(w, Happen(w, s, e).edLog, ca.signature) && PqKnown(w, Happen(w, s, e).pqLog, ca.pqSignature)
  {
    AnswerIsHonest(c, nonce, exporter, time);
    var claim := PqClaim(Claim(nonce, exporter, c.id, time), c.requested);
    var t := Happen(w, s, ClientSigns(c.edKey, c.pqKey, claim));
    EdBytes(claim.claim, 0);
    assert EdRecord(c.edKey, claim.claim) in t.edLog && PqRecord(c.pqKey, claim) in t.pqLog;
  }

  /** On every trace, a waiting connection whose hello reaches an admissible honest client over the
    * same TLS session can become a session of that client with the very services it asks for. */
  lemma HonestClientGetsIn(w: Setup, s: Sys, h: nat, c: Peer, services: map<Str, Str>, now: ClockSkew.Time, time: Int64)
    returns (t: Sys)
    requires Reached(w, s) && Waiting(s, h) && h in s.hellos && Honest(w, c, services)
    requires Admissible(w.clients, c, now, time)
    requires Fits(PqClaim(Claim(s.hellos[h].nonce, s.hellos[h].exporter, c.id, time), c.requested))
    ensures Reached(w, t) && h in t.accepted && h < |t.m.handlers|
    ensures t.m.handlers[h].pc.SettingUp? && t.m.handlers[h].client == c.id && t.m.handlers[h].requested == c.requested
  {
    SysReached(w, s);
    assert HelloOk(s, h);
    var hello := s.hellos[h];
    var ca := Answer(c, hello.nonce, hello.exporter, time);
    AnswerIsHonest(c, hello.nonce, hello.exporter, time);
    AnswerIsSigning(w, s, c, services, hello.nonce, hello.exporter, time);
    var e := ClientSigns(c.edKey, c.pqKey, PqClaim(Claim(hello.nonce, hello.exporter, ca.id, ca.time), ca.requested));
    AgreementLimits.ReachEvent(w, s, e);
    HonestAnswerAcceptedIff(w.clients, now, c, hello.nonce, hello.exporter, hello.exporter, time);
    t := Arrives(w, Happen(w, s, e), h, ca, now);
  }

  lemma Arrives(w: Setup, s: Sys, h: nat, ca: ClientAuth, now: ClockSkew.Time) returns (t: Sys)
    requires Reached(w, s) && Possible(w, s, AuthArrives(h, ca, now)) && Decide(w.clients, now, s.hellos[h], ca).Accepted?
    ensures Reached(w, t) && h in t.accepted && h < |t.m.handlers|
    ensures t.m.handlers[h].pc.SettingUp? && t.m.handlers[h].client == ca.id && t.m.handlers[h].requested == ca.requested
  {
    AgreementLimits.ReachEvent(w, s, AuthArrives(h, ca, now));
    t := Happen(w, s, AuthArrives(h, ca, now));
  }
}
