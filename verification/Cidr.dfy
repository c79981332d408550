/** The user allowlist: parseCIDRs and cidrAllowed of internal/tunnel/server.go. */
module Cidr {
  import opened Bytes
  import opened HostPort

  datatype Family = V4 | V6

  function Width(f: Family): (w: nat)
  {
    if f.V4? then 32 else 128
  }

  /** netip.Addr: a number of the family's width, and for IPv6 perhaps a zone. */
  datatype Addr = Addr(family: Family, number: nat, zoned: bool) {
    ghost predicate Valid() {
      number < Pow2(Width(family)) && (zoned ==> family.V6?)
    }
  }

  /** netip.Prefix. The address may have bits below the prefix length. */
  datatype Prefix = Prefix(addr: Addr, bits: nat) {
    ghost predicate Valid() {
      addr.Valid() && !addr.zoned && bits <= Width(addr.family)
    }
  }

  function Bit(n: nat, i: nat): (b: nat)
  {
    n / Pow2(i) % 2
  }

  /** Prefix.Contains: same family, no zone, and the leading bits agree. */
  predicate Contains(p: Prefix, a: Addr)
  {
    && p.addr.family == a.family && !a.zoned
    && forall i :: Width(a.family) - p.bits <= i < Width(a.family) && 0 <= i ==> Bit(p.addr.number, i) == Bit(a.number, i)
  }

  /** The addresses from the prefix address with its low bits cleared, one block long. */
  ghost predicate InRange(p: Prefix, a: Addr)
    requires p.Valid()
  {
    var size := Pow2(Width(p.addr.family) - p.bits);
    var low := p.addr.number / size * size;
    p.addr.family == a.family && !a.zoned && low <= a.number < low + size
  }

  lemma HalfDivision(n: nat, q: nat, d: nat, r: nat, e: nat)
    requires q > 0 && n == d * q + r && r < q && (d == 2 * e || d == 2 * e + 1)
    ensures n / (2 * q) == e
  {
    assert 2 * e * q == e * (2 * q);
    if d == 2 * e {
      DivUnique(n, 2 * q, e, r);
    } else {
      assert (2 * e + 1) * q == 2 * e * q + q;
      DivUnique(n, 2 * q, e, q + r);
    }
  }

  lemma DivMod(n: nat, q: nat)
    requires q > 0
    ensures n == n / q * q + n % q && n % q < q
  {}

  lemma HalvedTwice(n: nat, q: nat)
    requires q > 0
    ensures n / (2 * q) == n / q / 2
  {
    DivMod(n, q);
    var d: nat, r := n / q, n % q;
    HalfDivision(n, q, d, r, d / 2);
  }

  lemma DivHalves(n: nat, k: nat)
    ensures n / Pow2(k + 1) == n / Pow2(k) / 2
  {
    HalvedTwice(n, Pow2(k));
  }

  /** Numbers of w bits agree on bits k and up exactly when they agree after division by 2^k. */
  lemma {:induction false} LeadingBits(m: nat, n: nat, k: nat, w: nat)
    requires k <= w && m < Pow2(w) && n < Pow2(w)
    ensures (forall i :: k <= i < w ==> Bit(m, i) == Bit(n, i)) <==> m / Pow2(k) == n / Pow2(k)
    decreases w - k
  {
    if k == w {
      DivUnique(m, Pow2(k), 0, m);
      DivUnique(n, Pow2(k), 0, n);
    } else {
      LeadingBits(m, n, k + 1, w);
      DivHalves(m, k);
      DivHalves(n, k);
      var dm, dn := m / Pow2(k), n / Pow2(k);
      assert Bit(m, k) == dm % 2 && Bit(n, k) == dn % 2;
      assert dm == dn <==> dm / 2 == dn / 2 && dm % 2 == dn % 2;
    }
  }

  lemma SameBlock(m: nat, n: nat, q: nat)
    requires q > 0
    ensures m / q == n / q <==> m / q * q <= n < m / q * q + q
  {
    if m / q * q <= n < m / q * q + q {
      DivUnique(n, q, m / q, n - m / q * q);
    }
  }

  /** Agreement on the leading bits is membership in the numeric range of the prefix. */
  lemma ContainsIsRange(p: Prefix, a: Addr)
    requires p.Valid() && a.Valid()
    ensures Contains(p, a) <==> InRange(p, a)
  {
    var w := Width(p.addr.family);
    if p.addr.family == a.family {
      LeadingBits(p.addr.number, a.number, w - p.bits, w);
      SameBlock(p.addr.number, a.number, Pow2(w - p.bits));
    }
  }

  /** netip.ParsePrefix, as an argument: the results depend only on what it returns. */
  type Parser = Str -> Option<Prefix>

  ghost predicate Sound(parse: Parser)
  {
    forall s :: parse(s).Some? ==> parse(s).value.Valid()
  }

  /** What ServerConfig.Validate demands of a list. */
  ghost predicate AllParse(parse: Parser, texts: seq<Str>)
  {
    forall i :: 0 <= i < |texts| ==> parse(texts[i]).Some?
  }

  /** parseCIDRs: texts that do not parse are skipped. */
  method ParseCidrs(parse: Parser, texts: seq<Str>) returns (out: seq<Prefix>)
    ensures forall p :: p in out <==> exists i :: 0 <= i < |texts| && parse(texts[i]) == Some(p)
    ensures out == [] <==> forall i :: 0 <= i < |texts| ==> parse(texts[i]).None?
    ensures AllParse(parse, texts) ==>
              |out| == |texts| && forall i :: 0 <= i < |texts| ==> parse(texts[i]) == Some(out[i])
  {
    out := [];
    for k := 0 to |texts|
      invariant forall p :: p in out <==> exists i :: 0 <= i < k && parse(texts[i]) == Some(p)
      invariant out == [] <==> forall i :: 0 <= i < k ==> parse(texts[i]).None?
      invariant AllParse(parse, texts) ==>
                  |out| == k && forall i :: 0 <= i < k ==> parse(texts[i]) == Some(out[i])
    {
      var r := parse(texts[k]);
      if r.Some? {
        out := out + [r.value];
      }
    }
  }

  /** netip.ParseAddr. */
  type AddrParser = Str -> Option<Addr>

  /** The address in the text of a remote endpoint, if there is one. */
  function RemoteAddr(parseAddr: AddrParser, remote: Str): (r: Option<Addr>)
  {
    var split := SplitHostPort(remote);
    if split.None? then None else parseAddr(split.value.host)
  }

  /** The host is what is parsed, in brackets or not. */
  lemma RemoteHost(parseAddr: AddrParser, host: Str, port: Str)
    requires PlainPort(port)
    ensures PlainHost(host) ==> RemoteAddr(parseAddr, host + [COLON] + port) == parseAddr(host)
    ensures NoBrackets(host) ==> RemoteAddr(parseAddr, Bracketed(host, port)) == parseAddr(host)
  {
    if PlainHost(host) {
      SplitOfJoin(host, port);
    }
    if NoBrackets(host) {
      SplitOfBracketed(host, port);
    }
  }

  ghost predicate SoundAddr(parseAddr: AddrParser)
  {
    forall s :: parseAddr(s).Some? ==> parseAddr(s).value.Valid()
  }

  /** cidrAllowed. */
  method CidrAllowed(parseAddr: AddrParser, remote: Str, prefixes: seq<Prefix>) returns (ok: bool)
    ensures var a := RemoteAddr(parseAddr, remote);
            ok <==> prefixes == [] || (a.Some? && exists i :: 0 <= i < |prefixes| && Contains(prefixes[i], a.value))
  {
    if |prefixes| == 0 {
      return true;
    }
    var split := SplitHostPort(remote);
    if split.None? {
      return false;
    }
    var a := parseAddr(split.value.host);
    if a.None? {
      return false;
    }
    for i := 0 to |prefixes|
      invariant forall j :: 0 <= j < i ==> !Contains(prefixes[j], a.value)
    {
      if Contains(prefixes[i], a.value) {
        return true;
      }
    }
    return false;
  }

  /** Some text of the list names a block that holds the address. */
  ghost predicate InUnion(parse: Parser, texts: seq<Str>, a: Addr)
    requires Sound(parse) && AllParse(parse, texts)
  {
    exists i :: 0 <= i < |texts| && InRange(parse(texts[i]).value, a)
  }

  /** What parseCIDRs and cidrAllowed decide together: a list in which nothing parses admits everybody. */
  predicate Admits(parse: Parser, parseAddr: AddrParser, texts: seq<Str>, remote: Str)
  {
    var a := RemoteAddr(parseAddr, remote);
    || (forall i :: 0 <= i < |texts| ==> parse(texts[i]).None?)
    || (a.Some? && exists i :: 0 <= i < |texts| && parse(texts[i]).Some? && Contains(parse(texts[i]).value, a.value))
  }

  /** For a validated list that is membership in the union of the ranges. */
  lemma AdmitsIsUnion(parse: Parser, parseAddr: AddrParser, texts: seq<Str>, remote: Str)
    requires Sound(parse) && SoundAddr(parseAddr) && AllParse(parse, texts)
    ensures var a := RemoteAddr(parseAddr, remote);
            Admits(parse, parseAddr, texts, remote) <==> texts == [] || (a.Some? && InUnion(parse, texts, a.value))
  {
    var a := RemoteAddr(parseAddr, remote);
    if texts != [] {
      assert parse(texts[0]).Some?;
    }
    if a.Some? {
      forall i | 0 <= i < |texts|
        ensures Contains(parse(texts[i]).value, a.value) <==> InRange(parse(texts[i]).value, a.value)
      {
        ContainsIsRange(parse(texts[i]).value, a.value);
      }
    }
  }

  /** The admission decision of acceptUsers for one user. */
  method AdmitUser(parse: Parser, parseAddr: AddrParser, texts: seq<Str>, remote: Str) returns (ok: bool)
    ensures ok == Admits(parse, parseAddr, texts, remote)
    ensures Sound(parse) && SoundAddr(parseAddr) && AllParse(parse, texts) ==>
              var a := RemoteAddr(parseAddr, remote);
              ok <==> texts == [] || (a.Some? && InUnion(parse, texts, a.value))
  {
    var prefixes := ParseCidrs(parse, texts);
    ok := CidrAllowed(parseAddr, remote, prefixes);
    ghost var a := RemoteAddr(parseAddr, remote);
    assert a.Some? ==> ((exists i :: 0 <= i < |prefixes| && Contains(prefixes[i], a.value)) <==>
                        (exists i :: 0 <= i < |texts| && parse(texts[i]).Some? && Contains(parse(texts[i]).value, a.value))) by {
      if a.Some? {
        SameContainers(parse, texts, prefixes, a.value);
      }
    }
    if Sound(parse) && SoundAddr(parseAddr) && AllParse(parse, texts) {
      AdmitsIsUnion(parse, parseAddr, texts, remote);
    }
  }

  lemma SameContainers(parse: Parser, texts: seq<Str>, prefixes: seq<Prefix>, a: Addr)
    requires forall p :: p in prefixes <==> exists i :: 0 <= i < |texts| && parse(texts[i]) == Some(p)
    ensures (exists i :: 0 <= i < |prefixes| && Contains(prefixes[i], a)) <==>
            (exists i :: 0 <= i < |texts| && parse(texts[i]).Some? && Contains(parse(texts[i]).value, a))
  {
    if i :| 0 <= i < |prefixes| && Contains(prefixes[i], a) {
      assert prefixes[i] in prefixes;
    }
    if i :| 0 <= i < |texts| && parse(texts[i]).Some? && Contains(parse(texts[i]).value, a) {
      assert parse(texts[i]).value in prefixes;
    }
  }
}
