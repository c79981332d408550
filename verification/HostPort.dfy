/** net.SplitHostPort, which every validator and the generator rely on. */
module HostPort {
  import opened Bytes

  const COLON: Byte := 58
  const OPEN_BRACKET: Byte := 91
  const CLOSE_BRACKET: Byte := 93

  datatype Split = Split(host: Str, port: Str)

  function IndexOf(s: Str, c: Byte): (i: int)
    ensures i == -1 <==> c !in s
    ensures i != -1 ==> 0 <= i < |s| && s[i] == c && c !in s[..i]
  {
    if s == [] then -1
    else if s[0] == c then 0
    else
      var i := IndexOf(s[1..], c);
      if i == -1 then -1 else
      assert s[..i + 1] == [s[0]] + s[1..][..i];
      i + 1
  }

  function LastIndexOf(s: Str, c: Byte): (i: int)
    ensures i == -1 <==> c !in s
    ensures i != -1 ==> 0 <= i < |s| && s[i] == c && c !in s[i + 1..]
  {
    if s == [] then -1
    else
      var n := |s| - 1;
      if s[n] == c then n
      else
        var i := LastIndexOf(s[..n], c);
        assert s == s[..n] + [s[n]];
        if i == -1 then -1 else
        assert s[i + 1..] == s[..n][i + 1..] + [s[n]];
        i
  }

  function SplitHostPort(s: Str): (r: Option<Split>)
  {
    var i := LastIndexOf(s, COLON);
    if i < 0 then None
    else if s[0] == OPEN_BRACKET then
      var end := IndexOf(s, CLOSE_BRACKET);
      if end < 0 || end + 1 != i then None
      else if OPEN_BRACKET in s[1..] || CLOSE_BRACKET in s[i..] then None
      else Some(Split(s[1..end], s[i + 1..]))
    else if COLON in s[..i] then None
    else if OPEN_BRACKET in s || CLOSE_BRACKET in s then None
    else Some(Split(s[..i], s[i + 1..]))
  }

  predicate Splits(s: Str)
  {
    SplitHostPort(s).Some?
  }

  /** A port never holds a colon or a bracket. */
  ghost predicate PlainPort(port: Str)
  {
    COLON !in port && OPEN_BRACKET !in port && CLOSE_BRACKET !in port
  }

  lemma PortIsPlain(s: Str)
    requires Splits(s)
    ensures PlainPort(SplitHostPort(s).value.port)
  {
    var i := LastIndexOf(s, COLON);
    var port := s[i + 1..];
    assert s[0] == OPEN_BRACKET ==> i >= 1;
    assert forall c :: c in port ==> c in s && (i >= 1 ==> c in s[1..]) && c in s[i..];
  }

  ghost predicate PlainHost(host: Str)
  {
    COLON !in host && OPEN_BRACKET !in host && CLOSE_BRACKET !in host
  }

  lemma LastIndexAt(s: Str, c: Byte, k: nat)
    requires k < |s| && s[k] == c && c !in s[k + 1..]
    ensures LastIndexOf(s, c) == k
  {
    var i := LastIndexOf(s, c);
    assert c in s;
    assert forall m :: k < m < |s| ==> s[m] == s[k + 1..][m - k - 1];
    assert forall m :: i < m < |s| ==> s[m] == s[i + 1..][m - i - 1];
  }

  /** Joining a plain host and a plain port with a colon splits back into the two. */
  lemma SplitOfJoin(host: Str, port: Str)
    requires PlainHost(host) && PlainPort(port)
    ensures SplitHostPort(host + [COLON] + port) == Some(Split(host, port))
  {
    var s := host + [COLON] + port;
    assert s[|host| + 1..] == port && s[..|host|] == host;
    LastIndexAt(s, COLON, |host|);
    assert forall c :: c in s ==> c in host || c == COLON || c in port;
    assert OPEN_BRACKET !in s && CLOSE_BRACKET !in s;
    assert s[0] in s;
  }

  ghost predicate NoBrackets(host: Str)
  {
    OPEN_BRACKET !in host && CLOSE_BRACKET !in host
  }

  lemma IndexAt(s: Str, c: Byte, k: nat)
    requires k < |s| && s[k] == c && c !in s[..k]
    ensures IndexOf(s, c) == k
  {
    var i := IndexOf(s, c);
    assert c in s;
    assert forall m :: 0 <= m < k ==> s[m] == s[..k][m];
    assert forall m :: 0 <= m < i ==> s[m] == s[..i][m];
  }

  function Bracketed(host: Str, port: Str): (s: Str)
  {
    [OPEN_BRACKET] + host + [CLOSE_BRACKET, COLON] + port
  }

  /** A host in brackets may hold colons, as IPv6 addresses do. */
  lemma SplitOfBracketed(host: Str, port: Str)
    requires NoBrackets(host) && PlainPort(port)
    ensures SplitHostPort(Bracketed(host, port)) == Some(Split(host, port))
  {
    var s := Bracketed(host, port);
    var end := |host| + 1;
    assert s[end + 2..] == port && s[1..end] == host && s[end] == CLOSE_BRACKET && s[end + 1] == COLON;
    LastIndexAt(s, COLON, end + 1);
    assert s[..end] == [OPEN_BRACKET] + host;
    IndexAt(s, CLOSE_BRACKET, end);
    assert s[1..] == host + [CLOSE_BRACKET, COLON] + port && s[end + 1..] == [COLON] + port;
  }

  /** Nothing else splits: the text is a plain host, or one in brackets, with a colon and a plain port. */
  lemma SplitIff(s: Str, host: Str, port: Str)
    ensures SplitHostPort(s) == Some(Split(host, port)) <==>
            PlainPort(port) && ((PlainHost(host) && s == host + [COLON] + port) || (NoBrackets(host) && s == Bracketed(host, port)))
  {
    if SplitHostPort(s) == Some(Split(host, port)) {
      PortIsPlain(s);
      if s[0] == OPEN_BRACKET {
        BracketedSplit(s);
      } else {
        PlainSplit(s);
      }
    }
    if PlainPort(port) {
      if PlainHost(host) && s == host + [COLON] + port {
        SplitOfJoin(host, port);
      }
      if NoBrackets(host) && s == Bracketed(host, port) {
        SplitOfBracketed(host, port);
      }
    }
  }

  lemma PlainSplit(s: Str)
    requires Splits(s) && s[0] != OPEN_BRACKET
    ensures var x := SplitHostPort(s).value; PlainHost(x.host) && s == x.host + [COLON] + x.port
  {
    var i := LastIndexOf(s, COLON);
    assert forall c :: c in s[..i] ==> c in s;
    assert s == s[..i] + [s[i]] + s[i + 1..];
  }

  lemma BracketedSplit(s: Str)
    requires Splits(s) && s[0] == OPEN_BRACKET
    ensures var x := SplitHostPort(s).value; NoBrackets(x.host) && s == Bracketed(x.host, x.port)
  {
    var i, end := LastIndexOf(s, COLON), IndexOf(s, CLOSE_BRACKET);
    var host := s[1..end];
    assert forall c :: c in host ==> c in s[1..] && c in s[..end];
    assert s == [s[0]] + host + [s[end], s[i]] + s[i + 1..];
  }
}
