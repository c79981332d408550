/** internal/proto/framing.go: a 4-byte big-endian length, then that many bytes. */
module Framing {
  import opened Bytes

  const MAX_MESSAGE_SIZE: nat := 65536

  datatype FrameError = TooLarge | EndOfStream | UnexpectedEnd | WriteFailed

  function Frame(body: Str): (r: Str)
    ensures |r| == 4 + |body|
  {
    U32(|body|) + body
  }

  function Frames(bodies: seq<Str>): (r: Str)
  {
    if bodies == [] then [] else Frame(bodies[0]) + Frames(bodies[1..])
  }

  /** What one ReadMessage makes of a stream: its outcome and the bytes it leaves. */
  datatype Reading = Reading(outcome: Result<Str, FrameError>, rest: Str)

  /** io.ReadFull of n bytes. */
  function Full(s: Str, n: nat): (r: Reading)
    ensures r.outcome.Ok? ==> |r.outcome.value| == n && s == r.outcome.value + r.rest
  {
    if |s| >= n then Reading(Ok(s[..n]), s[n..])
    else Reading(Err(if s == [] then EndOfStream else UnexpectedEnd), [])
  }

  function ReadFrame(s: Str): (r: Reading)
  {
    var hdr := Full(s, 4);
    if hdr.outcome.Err? then hdr
    else
      var n := FromU32(hdr.outcome.value);
      if n > MAX_MESSAGE_SIZE then Reading(Err(TooLarge), hdr.rest)
      else Full(hdr.rest, n)
  }

  /** Repeated reads, until n bodies are in or a read fails. */
  function ReadFrames(s: Str, n: nat): (r: (seq<Str>, Str))
  {
    if n == 0 then ([], s)
    else
      var one := ReadFrame(s);
      if one.outcome.Err? then ([], one.rest)
      else
        var (more, rest) := ReadFrames(one.rest, n - 1);
        ([one.outcome.value] + more, rest)
  }

  ghost predicate AllFit(bodies: seq<Str>) {
    forall i :: 0 <= i < |bodies| ==> |bodies[i]| <= MAX_MESSAGE_SIZE
  }

  lemma ReadFrameOfFrame(body: Str, rest: Str)
    requires |body| <= MAX_MESSAGE_SIZE
    ensures ReadFrame(Frame(body) + rest) == Reading(Ok(body), rest)
  {
    var s := Frame(body) + rest;
    assert s[..4] == U32(|body|);
    FromU32OfU32(|body|);
    assert s[4..] == body + rest;
    assert (body + rest)[..|body|] == body && (body + rest)[|body|..] == rest;
  }

  lemma ReadFrameOfFrames(bodies: seq<Str>, rest: Str)
    requires bodies != [] && |bodies[0]| <= MAX_MESSAGE_SIZE
    ensures ReadFrame(Frames(bodies) + rest) == Reading(Ok(bodies[0]), Frames(bodies[1..]) + rest)
  {
    var head, tail := Frame(bodies[0]), Frames(bodies[1..]);
    assert (head + tail) + rest == head + (tail + rest);
    ReadFrameOfFrame(bodies[0], tail + rest);
  }

  lemma ReadFramesFirst(bodies: seq<Str>, rest: Str)
    requires bodies != [] && |bodies[0]| <= MAX_MESSAGE_SIZE
    ensures var more := ReadFrames(Frames(bodies[1..]) + rest, |bodies| - 1);
            ReadFrames(Frames(bodies) + rest, |bodies|) == ([bodies[0]] + more.0, more.1)
  {
    ReadFrameOfFrames(bodies, rest);
  }

  /** Bodies written back to back come back as the same list, and what follows them is untouched. */
  lemma {:induction false} FramingRoundTrip(bodies: seq<Str>, rest: Str)
    requires AllFit(bodies)
    ensures ReadFrames(Frames(bodies) + rest, |bodies|) == (bodies, rest)
  {
    if bodies == [] {
      assert Frames(bodies) + rest == rest;
    } else {
      FramingRoundTrip(bodies[1..], rest);
      ReadFramesFirst(bodies, rest);
      assert [bodies[0]] + bodies[1..] == bodies;
    }
  }

  /** A frame byte by byte: the length of the body, most significant byte first, then the body. */
  lemma FrameBytes(body: Str, i: nat)
    requires i < 4
    ensures |Frame(body)| == 4 + |body| && Frame(body)[4..] == body
    ensures Frame(body)[i] == |body| / Pow256(3 - i) % 256
  {
    BigEndianDigit(|body|, 4, i);
  }

  /** A successful read is a frame cut off the front; an oversized header costs exactly its four bytes. */
  lemma ReadFrameSound(s: Str)
    ensures match ReadFrame(s) {
              case Reading(Ok(body), rest) => |body| <= 65536 && s == Frame(body) + rest
              case Reading(Err(TooLarge), rest) =>
                |s| >= 4 && FromU32(s[..4]) > 65536 && rest == s[4..]
              case Reading(Err(e), rest) =>
                rest == [] && (|s| < 4 || |s| < 4 + FromU32(s[..4])) && !e.WriteFailed?
            }
  {
    if |s| >= 4 {
      U32OfFromU32(s[..4]);
    }
  }

  /** At most the first n bytes. */
  function Upto(s: Str, n: nat): (r: Str)
    ensures r <= s && |r| <= n
    ensures n >= |s| ==> r == s
    ensures n < |s| ==> |r| == n
  {
    if n < |s| then s[..n] else s
  }

  /** One direction of a connection. `data` is what has been written and not yet read. The network
    * takes `budget` more bytes before writes start to fail, and hands `reach` more bytes to the
    * reader before its reads do: a write can succeed and its bytes be lost all the same, with the
    * connection or because the reader's deadline has passed. */
  class Pipe {
    var data: Str
    var budget: nat
    var reach: nat

    /** What the reader will still get of what has been written. */
    ghost function Arriving(): (s: Str)
      reads this
    {
      Upto(data, reach)
    }

    constructor (data: Str, budget: nat, reach: nat)
      ensures this.data == data && this.budget == budget && this.reach == reach
    {
      this.data, this.budget, this.reach := data, budget, reach;
    }

    /** io.Writer: on failure a prefix of b may already be out. */
    method Write(b: Str) returns (ok: bool)
      modifies this`data, this`budget
      ensures ok == (old(budget) >= |b|)
      ensures ok ==> data == old(data) + b && budget == old(budget) - |b|
      ensures !ok ==> data == old(data) + b[..old(budget)] && budget == 0
    {
      if budget >= |b| {
        data, budget, ok := data + b, budget - |b|, true;
      } else {
        data, budget, ok := data + b[..budget], 0, false;
      }
    }

    /** io.Reader: hands over any non-empty piece of what arrives, at most n bytes. */
    method Read(n: nat) returns (b: Str)
      requires n > 0
      modifies this`data, this`reach
      ensures b + Arriving() == old(Arriving()) && |b| <= n
      ensures old(Arriving()) != [] ==> b != []
      ensures b + data == old(data) && |b| + reach == old(reach)
    {
      var k: nat := 0;
      if data != [] && reach > 0 {
        k :| 1 <= k <= n && k <= |data| && k <= reach;
      }
      b, data, reach := data[..k], data[k..], reach - k;
    }

    /** io.ReadFull. */
    method ReadFull(n: nat) returns (r: Result<Str, FrameError>)
      modifies this`data, this`reach
      ensures Full(old(Arriving()), n) == Reading(r, Arriving())
      ensures r.Ok? ==> r.value + data == old(data) && n + reach == old(reach)
    {
      var got: Str := [];
      while |got| < n
        invariant |got| <= n && got + Arriving() == old(Arriving())
        invariant got + data == old(data) && |got| + reach == old(reach)
        decreases n - |got|
      {
        var b := Read(n - |got|);
        if b == [] {
          return Err(if got == [] then EndOfStream else UnexpectedEnd);
        }
        got := got + b;
      }
      assert old(Arriving())[..n] == got;
      return Ok(got);
    }

    /** ReadMessage, up to the JSON text it returns. */
    method ReadMessage() returns (r: Result<Str, FrameError>)
      modifies this`data, this`reach
      ensures ReadFrame(old(Arriving())) == Reading(r, Arriving())
      ensures r.Ok? ==> |old(data)| == 4 + |r.value| + |data| && data == old(data)[4 + |r.value|..]
      ensures r.Ok? ==> 4 + |r.value| + reach == old(reach)
    {
      r := ReadFull(4);
      if r.Err? {
        return;
      }
      var n := FromU32(r.value);
      if n > MAX_MESSAGE_SIZE {
        return Err(TooLarge);
      }
      r := ReadFull(n);
    }

    /** WriteMessage of a body already turned into JSON. */
    method WriteMessage(body: Str) returns (r: Result<(), FrameError>)
      modifies this`data, this`budget
      ensures r == Err(TooLarge) <==> |body| > 65536
      ensures r == Err(TooLarge) ==> data == old(data) && budget == old(budget)
      ensures r.Ok? <==> |body| <= MAX_MESSAGE_SIZE && old(budget) >= 4 + |body|
      ensures r.Ok? ==> data == old(data) + Frame(body) && budget == old(budget) - |Frame(body)|
      ensures r == Err(WriteFailed) ==> data == old(data) + Frame(body)[..old(budget)] && budget == 0
      ensures r.Err? ==> r.error.TooLarge? || r.error.WriteFailed?
    {
      if |body| > MAX_MESSAGE_SIZE {
        return Err(TooLarge);
      }
      var hdr := new Byte[4];
      var n := U32(|body|);
      hdr[0], hdr[1], hdr[2], hdr[3] := n[0], n[1], n[2], n[3];
      assert hdr[..] == n;
      var ok := Write(hdr[..]);
      if !ok {
        assert Frame(body)[..old(budget)] == n[..old(budget)];
        return Err(WriteFailed);
      }
      ok := Write(body);
      if !ok {
        assert Frame(body)[..old(budget)] == n + body[..old(budget) - 4];
        return Err(WriteFailed);
      }
      return Ok(());
    }
  }
}
