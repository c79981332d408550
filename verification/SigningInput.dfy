/** The two signed-message encodings of internal/auth and their unique decodability. */
module SigningInput {
  import opened Bytes

  const NONCE_SIZE: nat := 32
  const EXPORTER_SIZE: nat := 32

  /** What a client signs with Ed25519. */
  datatype Claim = Claim(nonce: Str, exporter: Str, id: Str, time: Int64)

  /** What a client signs with ML-DSA: the same claim and the services it asks for. */
  datatype PqClaim = PqClaim(claim: Claim, services: seq<Str>)

  // ---------------------------------------------------------------- Ed25519

  /** The bytes of the Ed25519 message: bare concatenation. */
  function EdMessage(c: Claim): (r: Str)
    ensures |r| == |c.nonce| + |c.exporter| + |c.id| + 8
  {
    c.nonce + c.exporter + c.id + I64(c.time)
  }

  /** SigningInput: grows the buffer one field at a time. */
  method BuildEdMessage(nonce: Str, exporter: Str, id: Str, time: Int64) returns (out: Str)
    ensures out == EdMessage(Claim(nonce, exporter, id, time))
  {
    out := [];
    out := out + nonce;
    out := out + exporter;
    out := out + id;
    var ts := I64(time);
    out := out + ts;
  }

  /** The message byte by byte: the fields one after another, and the time as its two's complement,
    * most significant byte first. */
  lemma EdBytes(c: Claim, i: nat)
    requires i < 8
    ensures var m, n := EdMessage(c), |c.nonce|;
            && m[..n] == c.nonce && m[n..n + |c.exporter|] == c.exporter
            && m[n + |c.exporter|..|m| - 8] == c.id
            && m[|m| - 8 + i] == (c.time + TWO_64) % TWO_64 / Pow256(7 - i) % 256
  {
    I64Digit(c.time, i);
    var m := EdMessage(c);
    assert m[|m| - 8..] == I64(c.time);
    assert m[|m| - 8 + i] == I64(c.time)[i];
  }

  /** Cuts an Ed25519 message back into its fields, for nonces and exporters of the fixed sizes. */
  function ParseEd(b: Str): (r: Option<Claim>)
  {
    if |b| < NONCE_SIZE + EXPORTER_SIZE + 8 then None
    else
      var idEnd := |b| - 8;
      Some(Claim(b[..NONCE_SIZE], b[NONCE_SIZE..NONCE_SIZE + EXPORTER_SIZE],
                 b[NONCE_SIZE + EXPORTER_SIZE..idEnd], FromI64(b[idEnd..])))
  }

  ghost predicate FixedSizes(c: Claim) {
    |c.nonce| == NONCE_SIZE && |c.exporter| == EXPORTER_SIZE
  }

  /** ParseEd undoes EdMessage exactly on claims of the fixed sizes, and EdMessage undoes ParseEd. */
  lemma EdUniquelyDecodable(c: Claim, b: Str)
    ensures FixedSizes(c) <==> ParseEd(EdMessage(c)) == Some(c)
    ensures ParseEd(b).Some? ==> EdMessage(ParseEd(b).value) == b
  {
    var m := EdMessage(c);
    if FixedSizes(c) {
      assert m[..32] == c.nonce;
      assert m[32..64] == c.exporter;
      assert m[64..|m| - 8] == c.id;
      assert m[|m| - 8..] == I64(c.time);
      FromI64OfI64(c.time);
    }
    if ParseEd(b).Some? {
      I64OfFromI64(b[|b| - 8..]);
      var p := ParseEd(b).value;
      assert EdMessage(p) == b[..32] + b[32..64] + b[64..|b| - 8] + b[|b| - 8..];
    }
  }

  /** Equal Ed25519 messages come from equal claims when both nonces and exporters have the fixed sizes. */
  lemma EdInjective(c: Claim, d: Claim)
    requires FixedSizes(c) && FixedSizes(d)
    requires EdMessage(c) == EdMessage(d)
    ensures c == d
  {
    EdUniquelyDecodable(c, []);
    EdUniquelyDecodable(d, []);
  }

  /** The fixed nonce size is needed: with a nonce of another size bytes move from one field to the next. */
  lemma EdAmbiguousWithoutFixedNonce(nonce: Str, exporter: Str, id: Str, time: Int64)
    requires |nonce| == NONCE_SIZE && |exporter| == EXPORTER_SIZE && id != []
    ensures exists other: Claim :: |other.exporter| == EXPORTER_SIZE && other.id != id &&
              EdMessage(other) == EdMessage(Claim(nonce, exporter, id, time))
  {
    var other := Claim(nonce + exporter[..1], exporter[1..] + id[..1], id[1..], time);
    assert other.nonce + other.exporter + other.id == nonce + exporter + id;
    assert EdMessage(other) == EdMessage(Claim(nonce, exporter, id, time));
  }

  // ---------------------------------------------------------------- ML-DSA

  /** appendLengthPrefixed's contribution: a truncated 32-bit length, then the bytes. */
  function Prefixed(s: Str): (r: Str)
    ensures |r| == 4 + |s|
  {
    U32(|s|) + s
  }

  function PrefixedAll(ss: seq<Str>): (r: Str)
  {
    if ss == [] then [] else Prefixed(ss[0]) + PrefixedAll(ss[1..])
  }

  function PqHeader(c: Claim): (r: Str)
  {
    Prefixed(c.nonce) + Prefixed(c.exporter) + Prefixed(c.id) + I64(c.time)
  }

  function PqMessage(p: PqClaim): (r: Str)
  {
    PqHeader(p.claim) + U32(|p.services|) + PrefixedAll(p.services)
  }

  lemma {:induction false} PrefixedAllSnoc(ss: seq<Str>, s: Str)
    ensures PrefixedAll(ss + [s]) == PrefixedAll(ss) + Prefixed(s)
  {
    if ss == [] {
      assert [s][1..] == [] && ss + [s] == [s];
    } else {
      PrefixedAllSnoc(ss[1..], s);
      assert (ss + [s])[1..] == ss[1..] + [s];
    }
  }

  method AppendLengthPrefixed(dst: Str, src: Str) returns (r: Str)
    ensures r == dst + Prefixed(src)
  {
    var n := U32(|src|);
    r := dst + n;
    r := r + src;
  }

  /** PQSigningInput: appends every field, then loops over the services. */
  method BuildPqMessage(nonce: Str, exporter: Str, id: Str, time: Int64, requested: seq<Str>) returns (b: Str)
    ensures b == PqMessage(PqClaim(Claim(nonce, exporter, id, time), requested))
  {
    b := [];
    b := AppendLengthPrefixed(b, nonce);
    b := AppendLengthPrefixed(b, exporter);
    b := AppendLengthPrefixed(b, id);
    var ts := I64(time);
    b := b + ts;
    var n := U32(|requested|);
    b := b + n;
    ghost var claim := Claim(nonce, exporter, id, time);
    ghost var head := PqHeader(claim) + U32(|requested|);
    assert b == head;
    for i := 0 to |requested|
      invariant b == head + PrefixedAll(requested[..i])
    {
      PrefixedAllSnoc(requested[..i], requested[i]);
      assert requested[..i + 1] == requested[..i] + [requested[i]];
      b := AppendLengthPrefixed(b, requested[i]);
      assert b == head + (PrefixedAll(requested[..i]) + Prefixed(requested[i]));
    }
    assert requested[..|requested|] == requested;
  }

  /** The message piece by piece, from the front. */
  lemma PqPieces(p: PqClaim)
    ensures var c := p.claim;
            PqMessage(p) == U32(|c.nonce|) + c.nonce + U32(|c.exporter|) + c.exporter + U32(|c.id|) + c.id
                            + I64(c.time) + U32(|p.services|) + PrefixedAll(p.services)
  {
    var c := p.claim;
    assert Prefixed(c.nonce) + Prefixed(c.exporter) == U32(|c.nonce|) + c.nonce + U32(|c.exporter|) + c.exporter;
    assert Prefixed(c.nonce) + Prefixed(c.exporter) + Prefixed(c.id)
        == U32(|c.nonce|) + c.nonce + U32(|c.exporter|) + c.exporter + U32(|c.id|) + c.id;
  }

  /** And its list of services, from the back: each comes with its length in front. */
  lemma ServicePieces(services: seq<Str>, name: Str)
    ensures PrefixedAll(services + [name]) == PrefixedAll(services) + U32(|name|) + name
  {
    PrefixedAllSnoc(services, name);
    assert PrefixedAll(services) + Prefixed(name) == PrefixedAll(services) + U32(|name|) + name;
  }

  /** Lengths and the service count fit their 32-bit fields. */
  ghost predicate Fits(p: PqClaim) {
    && |p.claim.nonce| < TWO_32 && |p.claim.exporter| < TWO_32 && |p.claim.id| < TWO_32
    && |p.services| < TWO_32
    && AllShort(p.services)
  }

  ghost predicate AllShort(ss: seq<Str>) {
    forall i :: 0 <= i < |ss| ==> |ss[i]| < TWO_32
  }

  /** A parsed value and the bytes after it. */
  datatype Parsed<T> = Parsed(value: T, rest: Str)

  function ParseField(b: Str): (r: Option<Parsed<Str>>)
    ensures r.Some? ==> |r.value.rest| < |b|
  {
    if |b| < 4 then None
    else
      var n := FromU32(b[..4]);
      if |b| < 4 + n then None else Some(Parsed(b[4..4 + n], b[4 + n..]))
  }

  function ParseFields(b: Str, n: nat): (r: Option<Parsed<seq<Str>>>)
  {
    if n == 0 then Some(Parsed([], b))
    else
      match ParseField(b)
      case None => None
      case Some(first) =>
        match ParseFields(first.rest, n - 1)
        case None => None
        case Some(others) => Some(Parsed([first.value] + others.value, others.rest))
  }

  function ParseClaim(b: Str): (r: Option<Parsed<Claim>>)
  {
    match ParseFields(b, 3)
    case None => None
    case Some(p) =>
      if |p.value| != 3 || |p.rest| < 8 then None
      else Some(Parsed(Claim(p.value[0], p.value[1], p.value[2], FromI64(p.rest[..8])), p.rest[8..]))
  }

  /** The inverse of PqMessage; nothing may follow the last service. */
  function ParsePq(b: Str): (r: Option<PqClaim>)
  {
    match ParseClaim(b)
    case None => None
    case Some(c) =>
      if |c.rest| < 4 then None
      else
        match ParseFields(c.rest[4..], FromU32(c.rest[..4]))
        case None => None
        case Some(ss) => if ss.rest == [] then Some(PqClaim(c.value, ss.value)) else None
  }

  lemma ParseFieldOfPrefixed(s: Str, rest: Str)
    requires |s| < TWO_32
    ensures ParseField(Prefixed(s) + rest) == Some(Parsed(s, rest))
  {
    var b := Prefixed(s) + rest;
    assert b[..4] == U32(|s|);
    FromU32OfU32(|s|);
    assert b[4..4 + |s|] == s && b[4 + |s|..] == rest;
  }

  lemma {:induction false} ParseFieldsOfPrefixedAll(ss: seq<Str>, rest: Str)
    requires AllShort(ss)
    ensures ParseFields(PrefixedAll(ss) + rest, |ss|) == Some(Parsed(ss, rest))
  {
    if ss == [] {
      assert PrefixedAll(ss) + rest == rest;
    } else {
      var tail := PrefixedAll(ss[1..]) + rest;
      assert PrefixedAll(ss) + rest == Prefixed(ss[0]) + tail;
      ParseFieldOfPrefixed(ss[0], tail);
      ParseFieldsOfPrefixedAll(ss[1..], rest);
      assert [ss[0]] + ss[1..] == ss;
    }
  }

  lemma PqHeaderAsFields(c: Claim)
    ensures PqHeader(c) == PrefixedAll([c.nonce, c.exporter, c.id]) + I64(c.time)
  {
    var ss: seq<Str> := [c.nonce, c.exporter, c.id];
    assert ss[1..] == [c.exporter, c.id] && ss[1..][1..] == [c.id] && |ss[1..][1..][1..]| == 0;
    assert PrefixedAll(ss[1..][1..]) == Prefixed(c.id);
    assert PrefixedAll(ss[1..]) == Prefixed(c.exporter) + Prefixed(c.id);
    assert PrefixedAll(ss) == Prefixed(c.nonce) + (Prefixed(c.exporter) + Prefixed(c.id));
  }

  lemma ParseClaimOfPqHeader(c: Claim, rest: Str)
    requires |c.nonce| < TWO_32 && |c.exporter| < TWO_32 && |c.id| < TWO_32
    ensures ParseClaim(PqHeader(c) + rest) == Some(Parsed(c, rest))
  {
    var ss: seq<Str> := [c.nonce, c.exporter, c.id];
    var tail := I64(c.time) + rest;
    PqHeaderAsFields(c);
    assert PqHeader(c) + rest == PrefixedAll(ss) + tail;
    ParseFieldsOfPrefixedAll(ss, tail);
    assert tail[..8] == I64(c.time) && tail[8..] == rest;
    FromI64OfI64(c.time);
  }

  /** Every field, the service order included, is recovered from the ML-DSA message. */
  lemma PqUniquelyDecodable(p: PqClaim)
    requires Fits(p)
    ensures ParsePq(PqMessage(p)) == Some(p)
  {
    var tail := U32(|p.services|) + PrefixedAll(p.services);
    assert PqMessage(p) == PqHeader(p.claim) + tail;
    ParseClaimOfPqHeader(p.claim, tail);
    assert tail[..4] == U32(|p.services|);
    FromU32OfU32(|p.services|);
    assert tail[4..] == PrefixedAll(p.services) + [];
    ParseFieldsOfPrefixedAll(p.services, []);
  }

  /** Equal ML-DSA messages come from equal claims, whatever the sizes of nonce and exporter. */
  lemma PqInjective(p: PqClaim, q: PqClaim)
    requires Fits(p) && Fits(q)
    requires PqMessage(p) == PqMessage(q)
    ensures p == q
  {
    PqUniquelyDecodable(p);
    PqUniquelyDecodable(q);
  }

  lemma PrefixedOfParseField(b: Str)
    requires ParseField(b).Some?
    ensures var p := ParseField(b).value; |p.value| < TWO_32 && Prefixed(p.value) + p.rest == b
  {
    U32OfFromU32(b[..4]);
  }

  lemma PrefixedAllOfMore(first: Str, others: seq<Str>, rest: Str)
    requires |first| < TWO_32 && AllShort(others)
    ensures AllShort([first] + others)
    ensures PrefixedAll([first] + others) + rest == Prefixed(first) + (PrefixedAll(others) + rest)
  {
    assert ([first] + others)[1..] == others;
  }

  lemma {:induction false} PrefixedAllOfParseFields(b: Str, n: nat)
    requires ParseFields(b, n).Some?
    ensures var p := ParseFields(b, n).value;
            |p.value| == n && AllShort(p.value) && PrefixedAll(p.value) + p.rest == b
  {
    if n > 0 {
      PrefixedOfParseField(b);
      var first := ParseField(b).value;
      PrefixedAllOfParseFields(first.rest, n - 1);
      var others := ParseFields(first.rest, n - 1).value;
      PrefixedAllOfMore(first.value, others.value, others.rest);
    }
  }

  lemma PqHeaderOfParseClaim(b: Str)
    requires ParseClaim(b).Some?
    ensures var c := ParseClaim(b).value;
            && AllShort([c.value.nonce, c.value.exporter, c.value.id])
            && b == PqHeader(c.value) + c.rest
  {
    PrefixedAllOfParseFields(b, 3);
    var f := ParseFields(b, 3).value;
    var c := ParseClaim(b).value;
    assert f.value == [c.value.nonce, c.value.exporter, c.value.id];
    PqHeaderAsFields(c.value);
    I64OfFromI64(f.rest[..8]);
    assert f.rest == I64(c.value.time) + c.rest;
  }

  lemma ServicesOfParseFields(rest: Str)
    requires |rest| >= 4 && ParseFields(rest[4..], FromU32(rest[..4])).Some?
    requires ParseFields(rest[4..], FromU32(rest[..4])).value.rest == []
    ensures var ss := ParseFields(rest[4..], FromU32(rest[..4])).value.value;
            && |ss| < TWO_32 && AllShort(ss)
            && rest == U32(|ss|) + PrefixedAll(ss)
  {
    var n := FromU32(rest[..4]);
    U32OfFromU32(rest[..4]);
    PrefixedAllOfParseFields(rest[4..], n);
    var ss := ParseFields(rest[4..], n).value.value;
    assert PrefixedAll(ss) + [] == PrefixedAll(ss);
    assert rest == rest[..4] + rest[4..];
  }

  /** The parser accepts nothing but ML-DSA messages: what it returns encodes back to its input. */
  lemma PqParserSound(b: Str)
    requires ParsePq(b).Some?
    ensures Fits(ParsePq(b).value) && PqMessage(ParsePq(b).value) == b
  {
    PqHeaderOfParseClaim(b);
    var c := ParseClaim(b).value;
    var ids := [c.value.nonce, c.value.exporter, c.value.id];
    assert |ids[0]| < TWO_32 && |ids[1]| < TWO_32 && |ids[2]| < TWO_32;
    ServicesOfParseFields(c.rest);
  }
}
