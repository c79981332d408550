/** Signatures, the server's indexes and its decision on a ClientAuth. */
module Handshake {
  import opened Bytes
  import opened SigningInput
  import opened Config
  import KeyText
  import ClockSkew
  import Cidr

  const ED25519_SIGNATURE_SIZE: nat := 64
  const MLDSA_SIGNATURE_SIZE: nat := 3309
  const PQ_AUTH_LABEL: Str := Lit("passage-client-auth-v2")
  const PQ_ALGORITHM: Str := Lit("mldsa")

  // ------------------------------------------------------------ symbolic signatures

  /** An Ed25519 signature field: made with a key over a message, or any other bytes. */
  datatype EdSig = EdMade(key: Str, msg: Str) | EdRaw(bytes: Str) {
    function Size(): (n: nat) {
      if EdMade? then ED25519_SIGNATURE_SIZE else |bytes|
    }
  }

  /** An ML-DSA signature field, with its context string. */
  datatype PqSig = PqMade(key: Str, context: Str, msg: Str) | PqRaw(bytes: Str) {
    function Size(): (n: nat) {
      if PqMade? then MLDSA_SIGNATURE_SIZE else |bytes|
    }
  }

  /** A signature verifies for exactly the key and message it was made with. */
  predicate EdVerifies(key: Str, msg: Str, sig: EdSig) {
    sig == EdMade(key, msg)
  }

  predicate PqVerifies(key: Str, msg: Str, context: Str, sig: PqSig) {
    sig == PqMade(key, context, msg)
  }

  datatype ClientAuth = ClientAuth(
    id: Str, time: Int64, signature: EdSig, requested: seq<Str>, pqAlgorithm: Str, pqSignature: PqSig)

  /** The claims a ClientAuth makes on the connection of this hello. */
  function ClaimOf(nonce: Str, exporter: Str, ca: ClientAuth): (c: Claim)
  {
    Claim(nonce, exporter, ca.id, ca.time)
  }

  function PqClaimOf(nonce: Str, exporter: Str, ca: ClientAuth): (p: PqClaim)
  {
    PqClaim(ClaimOf(nonce, exporter, ca), ca.requested)
  }

  ghost predicate SomeEdKeyVerifies(pubs: seq<Str>, sig: EdSig, msg: Str)
  {
    exists k :: 0 <= k < |pubs| && |pubs[k]| == KeyText.ED25519_KEY_SIZE && EdVerifies(pubs[k], msg, sig)
  }

  ghost predicate SomePqKeyVerifies(pubs: seq<Str>, sig: PqSig, msg: Str)
  {
    exists k :: 0 <= k < |pubs| && PqVerifies(pubs[k], msg, PQ_AUTH_LABEL, sig)
  }

  /** auth.Verify. */
  method VerifyEd(pubs: seq<Str>, sig: EdSig, nonce: Str, exporter: Str, id: Str, time: Int64) returns (ok: bool)
    ensures ok <==> SomeEdKeyVerifies(pubs, sig, EdMessage(Claim(nonce, exporter, id, time)))
  {
    if sig.Size() != ED25519_SIGNATURE_SIZE {
      return false;
    }
    var msg := BuildEdMessage(nonce, exporter, id, time);
    for k := 0 to |pubs|
      invariant forall m :: 0 <= m < k ==> !(|pubs[m]| == KeyText.ED25519_KEY_SIZE && EdVerifies(pubs[m], msg, sig))
    {
      if |pubs[k]| == KeyText.ED25519_KEY_SIZE && EdVerifies(pubs[k], msg, sig) {
        return true;
      }
    }
    return false;
  }

  /** auth.PQVerify. */
  method VerifyPq(pubs: seq<Str>, sig: PqSig, nonce: Str, exporter: Str, id: Str, time: Int64, requested: seq<Str>)
    returns (ok: bool)
    ensures ok <==> SomePqKeyVerifies(pubs, sig, PqMessage(PqClaim(Claim(nonce, exporter, id, time), requested)))
  {
    if sig.Size() != MLDSA_SIGNATURE_SIZE {
      return false;
    }
    var msg := BuildPqMessage(nonce, exporter, id, time, requested);
    for k := 0 to |pubs|
      invariant forall m :: 0 <= m < k ==> !PqVerifies(pubs[m], msg, PQ_AUTH_LABEL, sig)
    {
      if PqVerifies(pubs[k], msg, PQ_AUTH_LABEL, sig) {
        return true;
      }
    }
    return false;
  }

  // ------------------------------------------------------------ the indexes of NewServer

  /** The maps of the Server struct that NewServer fills. */
  datatype Index = Index(
    pubs: map<Str, seq<Str>>, pqPubs: map<Str, seq<Str>>, allowed: map<Str, map<Str, ServiceEntry>>)

  /** The text of a key, prefix included, reads as this key. */
  ghost predicate Reads(text: Str, prefix: Str, size: nat, key: Str)
  {
    KeyText.HasPrefix(text, prefix) && KeyText.Spells(text[|prefix|..], size, key)
  }

  ghost predicate AllRead(texts: seq<Str>, prefix: Str, size: nat, keys: seq<Str>)
  {
    |keys| == |texts| && forall k :: 0 <= k < |texts| ==> Reads(texts[k], prefix, size, keys[k])
  }

  ghost predicate Readable(text: Str, prefix: Str, size: nat)
  {
    exists key :: Reads(text, prefix, size, key)
  }

  ghost predicate Decodable(texts: seq<Str>, prefix: Str, size: nat)
  {
    forall k :: 0 <= k < |texts| ==> Readable(texts[k], prefix, size)
  }

  ghost predicate KeysDecode(c: ClientEntry)
  {
    && Decodable(c.pubkeys, KeyText.PUBKEY_PREFIX, KeyText.ED25519_KEY_SIZE)
    && c.pqPubkeys != []
    && Decodable(c.pqPubkeys, KeyText.PQ_PUBKEY_PREFIX, KeyText.MLDSA_KEY_SIZE)
  }

  ghost predicate AllDecode(clients: seq<ClientEntry>, n: nat)
    requires n <= |clients|
  {
    forall i :: 0 <= i < n ==> KeysDecode(clients[i])
  }

  /** Among the first n services, j is the last of this name. */
  ghost predicate LastService(services: seq<ServiceEntry>, n: nat, name: Str, j: int)
  {
    0 <= j < n <= |services| && services[j].name == name && forall k :: j < k < n ==> services[k].name != name
  }

  /** Later services of the same name overwrite earlier ones. */
  ghost predicate MapsServices(services: seq<ServiceEntry>, n: nat, m: map<Str, ServiceEntry>)
    requires n <= |services|
  {
    && (forall name :: name in m ==> exists j :: LastService(services, n, name, j) && m[name] == services[j])
    && (forall j :: 0 <= j < n ==> services[j].name in m)
  }

  /** The entries of one client. */
  ghost predicate IndexesClient(c: ClientEntry, idx: Index)
  {
    && c.id in idx.pubs && c.id in idx.pqPubs && c.id in idx.allowed
    && AllRead(c.pubkeys, KeyText.PUBKEY_PREFIX, KeyText.ED25519_KEY_SIZE, idx.pubs[c.id])
    && AllRead(c.pqPubkeys, KeyText.PQ_PUBKEY_PREFIX, KeyText.MLDSA_KEY_SIZE, idx.pqPubs[c.id])
    && MapsServices(c.services, |c.services|, idx.allowed[c.id])
  }

  /** Among the first n clients, i is the last of its id. */
  ghost predicate LastClient(clients: seq<ClientEntry>, n: nat, i: int)
  {
    0 <= i < n <= |clients| && forall k :: i < k < n ==> clients[k].id != clients[i].id
  }

  /** The maps have exactly the ids of the first n clients as keys; the last client of an id
    * provides the entries. */
  ghost predicate IndexesFirst(clients: seq<ClientEntry>, n: nat, idx: Index)
    requires n <= |clients|
  {
    && idx.pubs.Keys == idx.pqPubs.Keys == idx.allowed.Keys
    && (forall id :: id in idx.pubs ==> exists i :: 0 <= i < n && clients[i].id == id)
    && (forall i :: 0 <= i < n ==> clients[i].id in idx.pubs)
    && (forall i :: LastClient(clients, n, i) ==> IndexesClient(clients[i], idx))
  }

  ghost predicate Indexes(clients: seq<ClientEntry>, idx: Index)
  {
    IndexesFirst(clients, |clients|, idx)
  }

  method DecodeKeys(texts: seq<Str>, prefix: Str, size: nat) returns (r: Option<seq<Str>>)
    ensures r.Some? <==> Decodable(texts, prefix, size)
    ensures r.Some? ==> AllRead(texts, prefix, size, r.value)
  {
    var keys: seq<Str> := [];
    for k := 0 to |texts|
      invariant |keys| == k && forall m :: 0 <= m < k ==> Reads(texts[m], prefix, size, keys[m])
    {
      var d := KeyText.DecodeKey(texts[k], prefix, size);
      if d.Err? {
        assert !Readable(texts[k], prefix, size);
        return None;
      }
      keys := keys + [d.value];
    }
    forall k | 0 <= k < |texts| ensures Readable(texts[k], prefix, size) {
      assert Reads(texts[k], prefix, size, keys[k]);
    }
    return Some(keys);
  }

  lemma MapsServicesStep(services: seq<ServiceEntry>, k: nat, m: map<Str, ServiceEntry>)
    requires k < |services| && MapsServices(services, k, m)
    ensures MapsServices(services, k + 1, m[services[k].name := services[k]])
  {
    var next := m[services[k].name := services[k]];
    forall name | name in next
      ensures exists j :: LastService(services, k + 1, name, j) && next[name] == services[j]
    {
      if name == services[k].name {
        assert LastService(services, k + 1, name, k);
      } else {
        var j :| LastService(services, k, name, j) && m[name] == services[j];
        assert LastService(services, k + 1, name, j);
      }
    }
  }

  method IndexServices(services: seq<ServiceEntry>) returns (m: map<Str, ServiceEntry>)
    ensures MapsServices(services, |services|, m)
  {
    m := map[];
    for k := 0 to |services|
      invariant MapsServices(services, k, m)
    {
      MapsServicesStep(services, k, m);
      m := m[services[k].name := services[k]];
    }
  }

  lemma EmptyIndex(clients: seq<ClientEntry>)
    ensures IndexesFirst(clients, 0, Index(map[], map[], map[]))
  {}

  lemma AllDecodeStep(clients: seq<ClientEntry>, n: nat)
    requires n < |clients| && AllDecode(clients, n)
    ensures AllDecode(clients, n + 1) <==> KeysDecode(clients[n])
    ensures AllDecode(clients, |clients|) ==> KeysDecode(clients[n])
  {}

  /** The index-filling loop of NewServer; it fails exactly when some key does not decode. */
  method NewIndex(clients: seq<ClientEntry>) returns (r: Option<Index>)
    ensures r.Some? <==> AllDecode(clients, |clients|)
    ensures r.Some? ==> Indexes(clients, r.value)
  {
    var idx := Index(map[], map[], map[]);
    EmptyIndex(clients);
    for n := 0 to |clients|
      invariant AllDecode(clients, n) && IndexesFirst(clients, n, idx)
    {
      ghost var before := idx;
      AllDecodeStep(clients, n);
      var next := IndexClient(clients[n], idx);
      if next.None? {
        return None;
      }
      idx := next.value;
      IndexGrows(clients, n, before, idx);
    }
    return Some(idx);
  }

  /** One turn of that loop. */
  method IndexClient(ce: ClientEntry, idx: Index) returns (r: Option<Index>)
    ensures r.Some? <==> KeysDecode(ce)
    ensures r.Some? ==> IndexesClient(ce, r.value) && Extends(idx, ce.id, r.value)
  {
    var pubs := DecodeKeys(ce.pubkeys, KeyText.PUBKEY_PREFIX, KeyText.ED25519_KEY_SIZE);
    if pubs.None? {
      return None;
    }
    if |ce.pqPubkeys| == 0 {
      return None;
    }
    var pqPubs := DecodeKeys(ce.pqPubkeys, KeyText.PQ_PUBKEY_PREFIX, KeyText.MLDSA_KEY_SIZE);
    if pqPubs.None? {
      return None;
    }
    var services := IndexServices(ce.services);
    r := Some(Index(idx.pubs[ce.id := pubs.value], idx.pqPubs[ce.id := pqPubs.value], idx.allowed[ce.id := services]));
  }

  /** Only the entries of one id may differ. */
  ghost predicate Extends(before: Index, id: Str, idx: Index)
  {
    && idx.pubs == before.pubs[id := if id in idx.pubs then idx.pubs[id] else []]
    && idx.pqPubs == before.pqPubs[id := if id in idx.pqPubs then idx.pqPubs[id] else []]
    && idx.allowed == before.allowed[id := if id in idx.allowed then idx.allowed[id] else map[]]
  }

  lemma IndexKeysGrow(before: Index, id: Str, idx: Index)
    requires Extends(before, id, idx) && before.pubs.Keys == before.pqPubs.Keys == before.allowed.Keys
    ensures idx.pubs.Keys == idx.pqPubs.Keys == idx.allowed.Keys == before.pubs.Keys + {id}
  {
    assert idx.pubs.Keys == before.pubs.Keys + {id};
    assert idx.pqPubs.Keys == before.pqPubs.Keys + {id};
    assert idx.allowed.Keys == before.allowed.Keys + {id};
  }

  lemma IndexGrows(clients: seq<ClientEntry>, n: nat, before: Index, idx: Index)
    requires n < |clients| && IndexesFirst(clients, n, before)
    requires IndexesClient(clients[n], idx) && Extends(before, clients[n].id, idx)
    ensures IndexesFirst(clients, n + 1, idx)
  {
    var id := clients[n].id;
    IndexKeysGrow(before, id, idx);
    forall i | LastClient(clients, n + 1, i) ensures IndexesClient(clients[i], idx) {
      EarlierClientKept(clients, n, before, idx, i);
    }
  }

  lemma EarlierClientKept(clients: seq<ClientEntry>, n: nat, before: Index, idx: Index, i: int)
    requires n < |clients| && IndexesFirst(clients, n, before) && LastClient(clients, n + 1, i)
    requires IndexesClient(clients[n], idx) && Extends(before, clients[n].id, idx)
    ensures IndexesClient(clients[i], idx)
  {
    if i < n {
      assert LastClient(clients, n, i) && clients[i].id != clients[n].id;
      OtherClientKept(clients[i], before, clients[n].id, idx);
    }
  }

  lemma OtherClientKept(c: ClientEntry, before: Index, id: Str, idx: Index)
    requires IndexesClient(c, before) && Extends(before, id, idx) && c.id != id
    ensures IndexesClient(c, idx)
  {
    assert idx.pubs[c.id] == before.pubs[c.id];
    assert idx.pqPubs[c.id] == before.pqPubs[c.id];
    assert idx.allowed[c.id] == before.allowed[c.id];
  }

  // ------------------------------------------------------------ the decision

  datatype Verdict =
    | Accepted
    | ClockSkewed
    | UnknownClient
    | BadSignature
    | NoServices
    | NotAllowed(name: Str)
    | PqMissing
    | PqUnknownAlgorithm
    | BadPqSignature

  /** What the server knows of the connection when the ClientAuth arrives. */
  datatype Hello = Hello(nonce: Str, exporter: Str)

  /** Some key listed for the client, read from its text, verifies the Ed25519 signature. */
  ghost predicate EdListed(c: ClientEntry, hello: Hello, ca: ClientAuth)
  {
    exists k, key :: 0 <= k < |c.pubkeys|
      && Reads(c.pubkeys[k], KeyText.PUBKEY_PREFIX, KeyText.ED25519_KEY_SIZE, key)
      && EdVerifies(key, EdMessage(ClaimOf(hello.nonce, hello.exporter, ca)), ca.signature)
  }

  ghost predicate PqListed(c: ClientEntry, hello: Hello, ca: ClientAuth)
  {
    exists k, key :: 0 <= k < |c.pqPubkeys|
      && Reads(c.pqPubkeys[k], KeyText.PQ_PUBKEY_PREFIX, KeyText.MLDSA_KEY_SIZE, key)
      && PqVerifies(key, PqMessage(PqClaimOf(hello.nonce, hello.exporter, ca)), PQ_AUTH_LABEL, ca.pqSignature)
  }

  /** The key is one of those listed for the client. */
  ghost predicate EdKeyOf(c: ClientEntry, key: Str)
  {
    exists k :: 0 <= k < |c.pubkeys| && Reads(c.pubkeys[k], KeyText.PUBKEY_PREFIX, KeyText.ED25519_KEY_SIZE, key)
  }

  ghost predicate PqKeyOf(c: ClientEntry, key: Str)
  {
    exists k :: 0 <= k < |c.pqPubkeys| && Reads(c.pqPubkeys[k], KeyText.PQ_PUBKEY_PREFIX, KeyText.MLDSA_KEY_SIZE, key)
  }

  ghost predicate Offers(c: ClientEntry, name: Str)
  {
    exists j :: 0 <= j < |c.services| && c.services[j].name == name
  }

  /** The first requested name, from position i on, that the client is not offered. */
  ghost function FirstRefused(c: ClientEntry, requested: seq<Str>, i: nat): (r: Option<Str>)
    requires i <= |requested|
    ensures r.None? <==> forall k :: i <= k < |requested| ==> Offers(c, requested[k])
    ensures r.Some? ==> exists k :: i <= k < |requested| && requested[k] == r.value && !Offers(c, requested[k])
                                    && forall m :: i <= m < k ==> Offers(c, requested[m])
    decreases |requested| - i
  {
    if i == |requested| then None
    else if !Offers(c, requested[i]) then Some(requested[i])
    else FirstRefused(c, requested, i + 1)
  }

  /** The position of the first client with this id. */
  ghost function FindClient(clients: seq<ClientEntry>, id: Str): (i: int)
    ensures i == -1 <==> forall k :: 0 <= k < |clients| ==> clients[k].id != id
    ensures i != -1 ==> 0 <= i < |clients| && clients[i].id == id
  {
    if clients == [] then -1
    else if clients[0].id == id then 0
    else
      var i := FindClient(clients[1..], id);
      assert forall k :: 1 <= k < |clients| ==> clients[k] == clients[1..][k - 1];
      if i == -1 then -1 else i + 1
  }

  /** The decision read off the configuration by searching its client list. */
  ghost function Decide(clients: seq<ClientEntry>, now: ClockSkew.Time, hello: Hello, ca: ClientAuth): (v: Verdict)
  {
    var i := FindClient(clients, ca.id);
    if !ClockSkew.SkewOk(now, ca.time) then ClockSkewed
    else if i == -1 then UnknownClient
    else
      var c := clients[i];
      if !EdListed(c, hello, ca) then BadSignature
      else if ca.requested == [] then NoServices
      else if FirstRefused(c, ca.requested, 0).Some? then NotAllowed(FirstRefused(c, ca.requested, 0).value)
      else if ca.pqAlgorithm == [] || ca.pqSignature.Size() == 0 then PqMissing
      else if ca.pqAlgorithm != PQ_ALGORITHM then PqUnknownAlgorithm
      else if !PqListed(c, hello, ca) then BadPqSignature
      else Accepted
  }

  /** Some listed Ed25519 key, read from its text, signed these fields one after another. */
  ghost predicate EdSigned(c: ClientEntry, hello: Hello, ca: ClientAuth)
  {
    ca.signature.EdMade? && EdKeyOf(c, ca.signature.key)
    && ca.signature.msg == hello.nonce + hello.exporter + ca.id + I64(ca.time)
  }

  /** Some listed ML-DSA key, under the label of the protocol, signed the same fields and the list. */
  ghost predicate PqSigned(c: ClientEntry, hello: Hello, ca: ClientAuth)
  {
    ca.pqSignature.PqMade? && PqKeyOf(c, ca.pqSignature.key) && ca.pqSignature.context == Lit("passage-client-auth-v2")
    && ca.pqSignature.msg == PqMessage(PqClaim(Claim(hello.nonce, hello.exporter, ca.id, ca.time), ca.requested))
  }

  /** What acceptance amounts to, whatever the order of the checks: of every ClientAuth, honest or not. */
  lemma AcceptedIff(clients: seq<ClientEntry>, now: ClockSkew.Time, hello: Hello, ca: ClientAuth)
    ensures Decide(clients, now, hello, ca).Accepted? <==>
            && (ClockSkew.WithinWindow(now, ca.time) || ClockSkew.BeyondRange(now, ca.time))
            && ca.requested != [] && ca.pqAlgorithm == Lit("mldsa")
            && exists i :: 0 <= i < |clients| && clients[i].id == ca.id && (forall k :: 0 <= k < i ==> clients[k].id != ca.id)
                 && EdSigned(clients[i], hello, ca) && PqSigned(clients[i], hello, ca)
                 && forall n :: 0 <= n < |ca.requested| ==> Offers(clients[i], ca.requested[n])
  {
    ClockSkew.SkewAccepts(now, ca.time);
    var i := FindClient(clients, ca.id);
    FindIsFirst(clients, ca.id);
    if i != -1 {
      SignedIff(clients[i], hello, ca);
      assert PQ_ALGORITHM[0] == 109;
    }
  }

  /** A refusal names the first check that fails, in the order of the source: the clock, the client, */
  lemma RefusedUnknown(clients: seq<ClientEntry>, now: ClockSkew.Time, hello: Hello, ca: ClientAuth)
    ensures var v := Decide(clients, now, hello, ca);
            var inTime := ClockSkew.WithinWindow(now, ca.time) || ClockSkew.BeyondRange(now, ca.time);
            && (v.ClockSkewed? <==> !inTime)
            && (v.UnknownClient? <==> inTime && FindClient(clients, ca.id) == -1)
  {
    ClockSkew.SkewAccepts(now, ca.time);
  }

  /** the Ed25519 signature, the services, the algorithm and the ML-DSA signature. */
  lemma RefusedKnown(clients: seq<ClientEntry>, now: ClockSkew.Time, hello: Hello, ca: ClientAuth)
    requires FindClient(clients, ca.id) != -1 && !Decide(clients, now, hello, ca).ClockSkewed?
    ensures var v, c := Decide(clients, now, hello, ca), clients[FindClient(clients, ca.id)];
            match v {
              case BadSignature => !EdSigned(c, hello, ca)
              case NoServices => EdSigned(c, hello, ca) && ca.requested == []
              case NotAllowed(name) => EdSigned(c, hello, ca) && name in ca.requested && !Offers(c, name)
              case PqUnknownAlgorithm => EdSigned(c, hello, ca) && ca.pqAlgorithm != Lit("mldsa")
              case BadPqSignature => EdSigned(c, hello, ca) && ca.pqAlgorithm == Lit("mldsa") && !PqSigned(c, hello, ca)
              case _ => true
            }
  {
    SignedIff(clients[FindClient(clients, ca.id)], hello, ca);
  }

  lemma SignedIff(c: ClientEntry, hello: Hello, ca: ClientAuth)
    ensures EdListed(c, hello, ca) <==> EdSigned(c, hello, ca)
    ensures PqListed(c, hello, ca) <==> PqSigned(c, hello, ca)
  {
    EdBytes(ClaimOf(hello.nonce, hello.exporter, ca), 0);
    if EdSigned(c, hello, ca) {
      var k :| 0 <= k < |c.pubkeys| && Reads(c.pubkeys[k], KeyText.PUBKEY_PREFIX, KeyText.ED25519_KEY_SIZE, ca.signature.key);
      assert EdVerifies(ca.signature.key, EdMessage(ClaimOf(hello.nonce, hello.exporter, ca)), ca.signature);
    }
    if PqSigned(c, hello, ca) {
      var k :| 0 <= k < |c.pqPubkeys| && Reads(c.pqPubkeys[k], KeyText.PQ_PUBKEY_PREFIX, KeyText.MLDSA_KEY_SIZE, ca.pqSignature.key);
      assert PqVerifies(ca.pqSignature.key, PqMessage(PqClaimOf(hello.nonce, hello.exporter, ca)), PQ_AUTH_LABEL, ca.pqSignature);
    }
  }

  lemma {:induction false} FindIsFirst(clients: seq<ClientEntry>, id: Str)
    ensures forall k :: 0 <= k < FindClient(clients, id) ==> clients[k].id != id
  {
    if clients != [] {
      FindIsFirst(clients[1..], id);
      assert forall k :: 1 <= k < |clients| ==> clients[k] == clients[1..][k - 1];
    }
  }

  lemma EdKeysAgree(c: ClientEntry, idx: Index, hello: Hello, ca: ClientAuth)
    requires IndexesClient(c, idx)
    ensures SomeEdKeyVerifies(idx.pubs[c.id], ca.signature, EdMessage(ClaimOf(hello.nonce, hello.exporter, ca)))
            <==> EdListed(c, hello, ca)
  {
    var pubs := idx.pubs[c.id];
    if EdListed(c, hello, ca) {
      var k, key :| 0 <= k < |c.pubkeys|
        && Reads(c.pubkeys[k], KeyText.PUBKEY_PREFIX, KeyText.ED25519_KEY_SIZE, key)
        && EdVerifies(key, EdMessage(ClaimOf(hello.nonce, hello.exporter, ca)), ca.signature);
      KeyText.SpellsOneKey(c.pubkeys[k][|KeyText.PUBKEY_PREFIX|..], KeyText.ED25519_KEY_SIZE, key, pubs[k]);
    }
  }

  lemma PqKeysAgree(c: ClientEntry, idx: Index, hello: Hello, ca: ClientAuth)
    requires IndexesClient(c, idx)
    ensures SomePqKeyVerifies(idx.pqPubs[c.id], ca.pqSignature, PqMessage(PqClaimOf(hello.nonce, hello.exporter, ca)))
            <==> PqListed(c, hello, ca)
  {
    var pubs := idx.pqPubs[c.id];
    if PqListed(c, hello, ca) {
      var k, key :| 0 <= k < |c.pqPubkeys|
        && Reads(c.pqPubkeys[k], KeyText.PQ_PUBKEY_PREFIX, KeyText.MLDSA_KEY_SIZE, key)
        && PqVerifies(key, PqMessage(PqClaimOf(hello.nonce, hello.exporter, ca)), PQ_AUTH_LABEL, ca.pqSignature);
      KeyText.SpellsOneKey(c.pqPubkeys[k][|KeyText.PQ_PUBKEY_PREFIX|..], KeyText.MLDSA_KEY_SIZE, key, pubs[k]);
    }
  }

  /** With unique ids the only client of an id is both the first and the last. */
  lemma FoundIsIndexed(clients: seq<ClientEntry>, idx: Index, id: Str)
    requires UniqueIds(clients) && Indexes(clients, idx)
    ensures var i := FindClient(clients, id);
            (i == -1 <==> id !in idx.pubs) && (i != -1 ==> IndexesClient(clients[i], idx))
  {
    var i := FindClient(clients, id);
    if i != -1 {
      assert LastClient(clients, |clients|, i);
    }
  }

  /** The allowlist loop of validateAuth. */
  method CheckRequested(ghost c: ClientEntry, allowed: map<Str, ServiceEntry>, requested: seq<Str>)
    returns (refused: Option<Str>)
    requires MapsServices(c.services, |c.services|, allowed)
    ensures refused == FirstRefused(c, requested, 0)
  {
    for i := 0 to |requested|
      invariant FirstRefused(c, requested, i) == FirstRefused(c, requested, 0)
    {
      assert requested[i] in allowed <==> Offers(c, requested[i]);
      if requested[i] !in allowed {
        return Some(requested[i]);
      }
    }
    return None;
  }

  /** validateAuth over the maps gives the verdict of a search through the client list. */
  method ValidateAuth(ghost clients: seq<ClientEntry>, idx: Index, now: ClockSkew.Time, hello: Hello, ca: ClientAuth)
    returns (v: Verdict)
    requires UniqueIds(clients) && Indexes(clients, idx)
    ensures v == Decide(clients, now, hello, ca)
  {
    FoundIsIndexed(clients, idx, ca.id);
    var inTime := ClockSkew.CheckClockSkew(now, ca.time);
    if !inTime {
      return ClockSkewed;
    }
    if ca.id !in idx.pubs {
      return UnknownClient;
    }
    ghost var c := clients[FindClient(clients, ca.id)];
    EdKeysAgree(c, idx, hello, ca);
    PqKeysAgree(c, idx, hello, ca);
    var signed := VerifyEd(idx.pubs[ca.id], ca.signature, hello.nonce, hello.exporter, ca.id, ca.time);
    if !signed {
      return BadSignature;
    }
    if |ca.requested| == 0 {
      return NoServices;
    }
    var refused := CheckRequested(c, idx.allowed[ca.id], ca.requested);
    if refused.Some? {
      return NotAllowed(refused.value);
    }
    if ca.pqAlgorithm == [] || ca.pqSignature.Size() == 0 {
      return PqMissing;
    }
    if ca.pqAlgorithm != PQ_ALGORITHM {
      return PqUnknownAlgorithm;
    }
    var pqSigned := VerifyPq(idx.pqPubs[ca.id], ca.pqSignature, hello.nonce, hello.exporter, ca.id, ca.time, ca.requested);
    if !pqSigned {
      return BadPqSignature;
    }
    return Accepted;
  }
}
