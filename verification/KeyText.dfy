/** Public keys as text: the four base64 variants tried by DecodePubkey and DecodePQPubkey. */
module KeyText {
  import opened Bytes

  const ED25519_KEY_SIZE: nat := 32
  const MLDSA_KEY_SIZE: nat := 1952
  const PUBKEY_PREFIX: Str := Lit("ed25519:")
  const PQ_PUBKEY_PREFIX: Str := Lit("mldsa:")
  const PAD: Byte := 61

  type Sextet = x: int | 0 <= x < 64

  /** The alphabets of sections 4 and 5 of RFC 4648. */
  datatype Alphabet = Standard | UrlSafe

  /** An encoding/base64 encoding: its alphabet and whether it pads. */
  datatype Variant = Variant(alphabet: Alphabet, padded: bool)

  const STD := Variant(Standard, true)
  const RAW_STD := Variant(Standard, false)
  const URL := Variant(UrlSafe, true)
  const RAW_URL := Variant(UrlSafe, false)

  /** The order in which the source tries them. */
  const VARIANTS: seq<Variant> := [STD, RAW_STD, URL, RAW_URL]

  function CharOf(a: Alphabet, v: Sextet): (c: Byte)
  {
    if v < 26 then 65 + v
    else if v < 52 then 97 + (v - 26)
    else if v < 62 then 48 + (v - 52)
    else if v == 62 then (if a.Standard? then 43 else 45)
    else (if a.Standard? then 47 else 95)
  }

  function SextetOf(a: Alphabet, c: Byte): (r: Option<Sextet>)
  {
    if 65 <= c <= 90 then Some(c - 65)
    else if 97 <= c <= 122 then Some(c - 97 + 26)
    else if 48 <= c <= 57 then Some(c - 48 + 52)
    else if c == (if a.Standard? then 43 else 45) then Some(62)
    else if c == (if a.Standard? then 47 else 95) then Some(63)
    else None
  }

  predicate InAlphabet(a: Alphabet, s: Str)
  {
    forall i :: 0 <= i < |s| ==> SextetOf(a, s[i]).Some?
  }

  /** The sextet of character i, or zero past the end of a short quantum. */
  function SextetAt(a: Alphabet, s: Str, i: nat): (v: Sextet)
    requires InAlphabet(a, s)
  {
    if i < |s| then SextetOf(a, s[i]).value else 0
  }

  /** Four sextets as three bytes. */
  function Regroup(d0: Sextet, d1: Sextet, d2: Sextet, d3: Sextet): (r: Str)
    ensures |r| == 3
  {
    [d0 * 4 + d1 / 16, d1 % 16 * 16 + d2 / 4, d2 % 4 * 64 + d3]
  }

  /** The bytes of one quantum of two to four characters; spare bits are ignored. */
  function Quantum(a: Alphabet, s: Str): (r: Str)
    requires 2 <= |s| <= 4 && InAlphabet(a, s)
    ensures |r| == |s| - 1
  {
    Regroup(SextetAt(a, s, 0), SextetAt(a, s, 1), SextetAt(a, s, 2), SextetAt(a, s, 3))[..|s| - 1]
  }

  /** Line breaks are skipped wherever they stand. */
  function Clean(s: Str): (r: Str)
    ensures |r| <= |s|
  {
    if s == [] then []
    else if s[0] == 10 || s[0] == 13 then Clean(s[1..])
    else [s[0]] + Clean(s[1..])
  }

  /** The non-padding part of a last quantum that ends in one or two padding characters. */
  function Unpad(s: Str): (r: Str)
    requires |s| == 4 && s[3] == PAD
  {
    if s[2] == PAD then s[..2] else s[..3]
  }

  /** Decoding of text without line breaks. */
  function DecodeClean(v: Variant, s: Str): (r: Option<Str>)
  {
    var a := v.alphabet;
    if s == [] then Some([])
    else if |s| < 4 then
      if v.padded || |s| == 1 || !InAlphabet(a, s) then None else Some(Quantum(a, s))
    else if InAlphabet(a, s[..4]) then
      match DecodeClean(v, s[4..]) {
        case None => None
        case Some(rest) => Some(Quantum(a, s[..4]) + rest)
      }
    else if v.padded && |s| == 4 && s[3] == PAD && InAlphabet(a, Unpad(s)) then
      Some(Quantum(a, Unpad(s)))
    else None
  }

  /** Encoding.DecodeString. */
  function Decode(v: Variant, s: Str): (r: Option<Str>)
  {
    DecodeClean(v, Clean(s))
  }

  // ------------------------------------------------------------ encoding

  /** The four characters of three bytes. */
  function Letters(a: Alphabet, x: Byte, y: Byte, z: Byte): (s: Str)
    ensures |s| == 4
  {
    [CharOf(a, x / 4), CharOf(a, x % 4 * 16 + y / 16), CharOf(a, y % 16 * 4 + z / 64), CharOf(a, z % 64)]
  }

  function Padding(v: Variant, n: nat): (s: Str)
    ensures |s| == if v.padded then n else 0
  {
    if v.padded then seq(n, _ => PAD) else []
  }

  /** Encoding.EncodeToString. */
  function EncodeAs(v: Variant, b: Str): (s: Str)
  {
    if b == [] then []
    else if |b| == 1 then
      Letters(v.alphabet, b[0], 0, 0)[..2] + Padding(v, 2)
    else if |b| == 2 then
      Letters(v.alphabet, b[0], b[1], 0)[..3] + Padding(v, 1)
    else
      Letters(v.alphabet, b[0], b[1], b[2]) + EncodeAs(v, b[3..])
  }

  /** What the program itself writes. */
  function Encode(b: Str): (s: Str)
  {
    EncodeAs(STD, b)
  }

  /** The alphabets in characters: A to Z, a to z, 0 to 9, and two that differ. */
  lemma AlphabetInCharacters(a: Alphabet, v: Sextet)
    ensures v < 26 ==> CharOf(a, v) == 'A' as int + v
    ensures 26 <= v < 52 ==> CharOf(a, v) == 'a' as int + (v - 26)
    ensures 52 <= v < 62 ==> CharOf(a, v) == '0' as int + (v - 52)
    ensures CharOf(Standard, 62) == '+' as int && CharOf(Standard, 63) == '/' as int
    ensures CharOf(UrlSafe, 62) == '-' as int && CharOf(UrlSafe, 63) == '_' as int && PAD == '=' as int
  {}

  lemma SextetOfCharOf(a: Alphabet, v: Sextet)
    ensures SextetOf(a, CharOf(a, v)) == Some(v)
    ensures CharOf(a, v) != PAD && CharOf(a, v) != 10 && CharOf(a, v) != 13
  {}

  lemma CharOfSextetOf(a: Alphabet, c: Byte)
    ensures SextetOf(a, c).Some? ==> CharOf(a, SextetOf(a, c).value) == c && c != PAD
  {}

  ghost predicate NoBreaks(s: Str) {
    forall i :: 0 <= i < |s| ==> s[i] != 10 && s[i] != 13
  }

  lemma LettersInAlphabet(a: Alphabet, x: Byte, y: Byte, z: Byte)
    ensures InAlphabet(a, Letters(a, x, y, z)) && NoBreaks(Letters(a, x, y, z))
    ensures SextetAt(a, Letters(a, x, y, z), 0) == x / 4
    ensures SextetAt(a, Letters(a, x, y, z), 1) == x % 4 * 16 + y / 16
    ensures SextetAt(a, Letters(a, x, y, z), 2) == y % 16 * 4 + z / 64
    ensures SextetAt(a, Letters(a, x, y, z), 3) == z % 64
  {
    SextetOfCharOf(a, x / 4);
    SextetOfCharOf(a, x % 4 * 16 + y / 16);
    SextetOfCharOf(a, y % 16 * 4 + z / 64);
    SextetOfCharOf(a, z % 64);
  }

  lemma RegroupUndoes(x: Byte, y: Byte, z: Byte)
    ensures Regroup(x / 4, x % 4 * 16 + y / 16, y % 16 * 4 + z / 64, z % 64) == [x, y, z]
  {
    assert (x % 4 * 16 + y / 16) / 16 == x % 4 && (x % 4 * 16 + y / 16) % 16 == y / 16;
    assert (y % 16 * 4 + z / 64) / 4 == y % 16 && (y % 16 * 4 + z / 64) % 4 == z / 64;
  }

  /** Characters that stand for zero may be left out at the end. */
  lemma QuantumOfShort(a: Alphabet, s: Str, k: nat)
    requires |s| == 4 && InAlphabet(a, s) && 2 <= k <= 4
    requires forall i :: k <= i < 4 ==> SextetAt(a, s, i) == 0
    ensures InAlphabet(a, s[..k])
    ensures Quantum(a, s[..k]) == Quantum(a, s)[..k - 1]
  {
    ShortSextets(a, s, k, 0);
    ShortSextets(a, s, k, 1);
    ShortSextets(a, s, k, 2);
    ShortSextets(a, s, k, 3);
  }

  lemma QuantumOfAllLetters(a: Alphabet, x: Byte, y: Byte, z: Byte)
    ensures InAlphabet(a, Letters(a, x, y, z)) && Quantum(a, Letters(a, x, y, z)) == [x, y, z]
  {
    LettersInAlphabet(a, x, y, z);
    RegroupUndoes(x, y, z);
  }

  lemma QuantumOfLetters(a: Alphabet, x: Byte, y: Byte, z: Byte, k: nat)
    requires 2 <= k <= 4
    requires k <= 3 ==> z == 0
    requires k <= 2 ==> y == 0
    ensures InAlphabet(a, Letters(a, x, y, z)[..k])
    ensures Quantum(a, Letters(a, x, y, z)[..k]) == [x, y, z][..k - 1]
  {
    QuantumOfAllLetters(a, x, y, z);
    ZeroLetters(a, x, y, z, k);
    QuantumOfShort(a, Letters(a, x, y, z), k);
  }

  lemma ZeroLetters(a: Alphabet, x: Byte, y: Byte, z: Byte, k: nat)
    requires k <= 3 ==> z == 0
    requires k <= 2 ==> y == 0
    ensures InAlphabet(a, Letters(a, x, y, z))
    ensures forall i :: 2 <= i < 4 && k <= i ==> SextetAt(a, Letters(a, x, y, z), i) == 0
  {
    LettersInAlphabet(a, x, y, z);
    assert z == 0 ==> z % 64 == 0 && z / 64 == 0;
    assert y == 0 ==> y % 16 * 4 == 0;
  }

  lemma ShortSextets(a: Alphabet, s: Str, k: nat, i: nat)
    requires k <= |s| && InAlphabet(a, s)
    ensures InAlphabet(a, s[..k])
    ensures SextetAt(a, s[..k], i) == if i < k then SextetAt(a, s, i) else 0
  {}

  lemma DecodeFullQuantum(v: Variant, q: Str, rest: Str)
    requires |q| == 4 && InAlphabet(v.alphabet, q) && DecodeClean(v, rest).Some?
    ensures DecodeClean(v, q + rest) == Some(Quantum(v.alphabet, q) + DecodeClean(v, rest).value)
  {
    assert (q + rest)[..4] == q && (q + rest)[4..] == rest;
  }

  /** A last quantum of two or three letters, with its padding. */
  lemma DecodeLastQuantum(v: Variant, q: Str)
    requires 2 <= |q| <= 3 && InAlphabet(v.alphabet, q)
    ensures DecodeClean(v, q + Padding(v, 4 - |q|)) == Some(Quantum(v.alphabet, q))
  {
    var s := q + Padding(v, 4 - |q|);
    if v.padded {
      assert s[3] == PAD && s[..4][3] == PAD && SextetOf(v.alphabet, PAD).None?;
      assert s[2] == PAD <==> |q| == 2 by {
        if |q| == 3 {
          assert s[2] == q[2];
        }
      }
      assert Unpad(s) == q;
    } else {
      assert s == q;
    }
  }

  /** Every variant reads back what it wrote. */
  lemma {:induction false} DecodeOfEncodeAs(v: Variant, b: Str)
    ensures DecodeClean(v, EncodeAs(v, b)) == Some(b)
  {
    var a := v.alphabet;
    if b == [] {
    } else if |b| == 1 {
      QuantumOfLetters(a, b[0], 0, 0, 2);
      DecodeLastQuantum(v, Letters(a, b[0], 0, 0)[..2]);
      assert [b[0], 0, 0][..1] == b;
    } else if |b| == 2 {
      QuantumOfLetters(a, b[0], b[1], 0, 3);
      DecodeLastQuantum(v, Letters(a, b[0], b[1], 0)[..3]);
      assert [b[0], b[1], 0][..2] == b;
    } else {
      QuantumOfAllLetters(a, b[0], b[1], b[2]);
      DecodeOfEncodeAs(v, b[3..]);
      DecodeFullQuantum(v, Letters(a, b[0], b[1], b[2]), EncodeAs(v, b[3..]));
      assert b == [b[0], b[1], b[2]] + b[3..];
    }
  }

  lemma {:induction false} EncodeHasNoBreaks(v: Variant, b: Str)
    ensures NoBreaks(EncodeAs(v, b))
  {
    if |b| == 1 {
      LettersInAlphabet(v.alphabet, b[0], 0, 0);
    } else if |b| == 2 {
      LettersInAlphabet(v.alphabet, b[0], b[1], 0);
    } else if |b| >= 3 {
      LettersInAlphabet(v.alphabet, b[0], b[1], b[2]);
      EncodeHasNoBreaks(v, b[3..]);
    }
  }

  lemma {:induction false} CleanSkipsBreak(s: Str, c: Byte, t: Str)
    requires c == 10 || c == 13
    ensures Clean(s + [c] + t) == Clean(s + t)
  {
    if s == [] {
      assert s + [c] + t == [c] + t && ([c] + t)[1..] == t && s + t == t;
    } else {
      CleanSkipsBreak(s[1..], c, t);
      assert (s + [c] + t)[1..] == s[1..] + [c] + t && (s + t)[1..] == s[1..] + t;
    }
  }

  /** A line break anywhere in a text makes no difference. */
  lemma BreaksAreIgnored(v: Variant, s: Str, c: Byte, t: Str)
    requires c == 10 || c == 13
    ensures Decode(v, s + [c] + t) == Decode(v, s + t)
  {
    CleanSkipsBreak(s, c, t);
  }

  /** Decoding undoes encoding, for all bytes and all four variants. */
  lemma DecodeUndoesEncode(v: Variant, b: Str)
    ensures Decode(v, EncodeAs(v, b)) == Some(b)
  {
    EncodeHasNoBreaks(v, b);
    CleanOfNoBreaks(EncodeAs(v, b));
    DecodeOfEncodeAs(v, b);
  }

  // ------------------------------------------------------------ what is accepted

  /** The position of the letter with spare bits, in the encoding of n bytes; none if n is a multiple of three. */
  function SpareAt(n: nat): (i: nat)
  {
    4 * (n / 3) + n % 3
  }

  /** The text is the encoding of b, but for spare bits in the last letter. */
  ghost predicate EncodesLoosely(v: Variant, s: Str, b: Str)
  {
    && |s| == |EncodeAs(v, b)|
    && forall i :: 0 <= i < |s| && i != SpareAt(|b|) ==> s[i] == EncodeAs(v, b)[i]
  }

  /** Three bytes give back the four sextets they were made of. */
  lemma RegroupKeeps(d0: Sextet, d1: Sextet, d2: Sextet, d3: Sextet)
    ensures var b := Regroup(d0, d1, d2, d3);
            b[0] / 4 == d0 && b[0] % 4 * 16 + b[1] / 16 == d1 && b[1] % 16 * 4 + b[2] / 64 == d2 && b[2] % 64 == d3
  {
    var e0: int, e1: int, e2: int, e3: int := d0, d1, d2, d3;
    assert (e0 * 4 + e1 / 16) / 4 == e0 && (e0 * 4 + e1 / 16) % 4 == e1 / 16;
    assert (e1 % 16 * 16 + e2 / 4) / 16 == e1 % 16 && (e1 % 16 * 16 + e2 / 4) % 16 == e2 / 4;
    assert (e2 % 4 * 64 + e3) / 64 == e2 % 4 && (e2 % 4 * 64 + e3) % 64 == e3;
  }

  /** Letter i of three bytes depends on the sextet that is there. */
  lemma LetterAt(a: Alphabet, q: Str, x: Byte, y: Byte, z: Byte, i: nat)
    requires i < |q| <= 4 && InAlphabet(a, q)
    requires SextetAt(a, q, i) == if i == 0 then x / 4 else if i == 1 then x % 4 * 16 + y / 16
                                  else if i == 2 then y % 16 * 4 + z / 64 else z % 64
    ensures Letters(a, x, y, z)[i] == q[i]
  {
    CharOfSextetOf(a, q[i]);
  }

  /** The bytes of a quantum give back its letters, but for the one with spare bits. */
  lemma LettersOfQuantum(a: Alphabet, q: Str, b: Str)
    requires 2 <= |q| <= 4 && InAlphabet(a, q) && b == Quantum(a, q)
    ensures var l := Letters(a, b[0], if |q| > 2 then b[1] else 0, if |q| > 3 then b[2] else 0);
            forall i :: 0 <= i < |q| && !(i == |q| - 1 && |q| < 4) ==> l[i] == q[i]
  {
    var y, z := if |q| > 2 then b[1] else 0, if |q| > 3 then b[2] else 0;
    RegroupKeeps(SextetAt(a, q, 0), SextetAt(a, q, 1), SextetAt(a, q, 2), SextetAt(a, q, 3));
    LetterAt(a, q, b[0], y, z, 0);
    if |q| > 2 {
      LetterAt(a, q, b[0], y, z, 1);
    }
    if |q| > 3 {
      LetterAt(a, q, b[0], y, z, 2);
      LetterAt(a, q, b[0], y, z, 3);
    }
  }

  lemma {:induction false} DecodeReadsEncodings(v: Variant, s: Str, b: Str)
    requires DecodeClean(v, s) == Some(b)
    ensures EncodesLoosely(v, s, b)
    decreases |s|
  {
    var a := v.alphabet;
    if s == [] {
    } else if |s| < 4 {
      LettersOfQuantum(a, s, b);
    } else if InAlphabet(a, s[..4]) {
      var rest := DecodeClean(v, s[4..]).value;
      DecodeReadsEncodings(v, s[4..], rest);
      FullQuantumLoosely(v, s, rest);
    } else {
      LettersOfQuantum(a, Unpad(s), b);
    }
  }

  lemma FullQuantumLoosely(v: Variant, s: Str, rest: Str)
    requires |s| >= 4 && InAlphabet(v.alphabet, s[..4]) && EncodesLoosely(v, s[4..], rest)
    ensures EncodesLoosely(v, s, Quantum(v.alphabet, s[..4]) + rest)
  {
    var a, q := v.alphabet, s[..4];
    var first := Quantum(a, q);
    var b := first + rest;
    LettersOfQuantum(a, q, first);
    assert b[3..] == rest && b[0] == first[0] && b[1] == first[1] && b[2] == first[2];
    var l := Letters(a, b[0], b[1], b[2]);
    assert EncodeAs(v, b) == l + EncodeAs(v, rest);
    assert SpareAt(|b|) == 4 + SpareAt(|rest|) by {
      assert (3 + |rest|) / 3 == 1 + |rest| / 3 && (3 + |rest|) % 3 == |rest| % 3;
    }
    forall i | 0 <= i < |s| && i != SpareAt(|b|) ensures s[i] == EncodeAs(v, b)[i] {
      if i < 4 {
        assert l[i] == q[i];
      } else {
        assert s[i] == s[4..][i - 4];
      }
    }
  }

  lemma {:induction false} CleanOfNoBreaks(s: Str)
    requires NoBreaks(s)
    ensures Clean(s) == s
  {
    if s != [] {
      CleanOfNoBreaks(s[1..]);
      assert s == [s[0]] + s[1..];
    }
  }

  /** Wherever both alphabets accept a character they give it the same value. */
  lemma QuantumAgrees(a: Alphabet, b: Alphabet, s: Str)
    requires 2 <= |s| <= 4 && InAlphabet(a, s) && InAlphabet(b, s)
    ensures Quantum(a, s) == Quantum(b, s)
  {
    assert forall i :: 0 <= i < |s| ==> SextetOf(a, s[i]) == SextetOf(b, s[i]);
    assert SextetAt(a, s, 0) == SextetAt(b, s, 0) && SextetAt(a, s, 1) == SextetAt(b, s, 1);
    assert SextetAt(a, s, 2) == SextetAt(b, s, 2) && SextetAt(a, s, 3) == SextetAt(b, s, 3);
  }

  /** Any two variants that accept a text decode it to the same bytes. */
  lemma {:induction false} VariantsAgree(v: Variant, w: Variant, s: Str)
    requires DecodeClean(v, s).Some? && DecodeClean(w, s).Some?
    ensures DecodeClean(v, s) == DecodeClean(w, s)
  {
    var a, b := v.alphabet, w.alphabet;
    if s == [] {
    } else if |s| < 4 {
      QuantumAgrees(a, b, s);
    } else if InAlphabet(a, s[..4]) {
      assert s[..4][3] == s[3] && SextetOf(b, PAD).None? && SextetOf(a, PAD).None?;
      assert InAlphabet(b, s[..4]);
      QuantumAgrees(a, b, s[..4]);
      VariantsAgree(v, w, s[4..]);
    } else {
      assert !InAlphabet(b, s[..4]) by {
        assert s[..4][3] == PAD && SextetOf(b, PAD).None?;
      }
      QuantumAgrees(a, b, Unpad(s));
    }
  }

  /** A text without a full quantum at its front: it ends in padding exactly for a padded variant. */
  lemma LastQuantumPadding(v: Variant, s: Str)
    requires s != [] && DecodeClean(v, s).Some? && (|s| < 4 || !InAlphabet(v.alphabet, s[..4]))
    ensures v.padded <==> s[|s| - 1] == PAD
  {
    if |s| < 4 {
      assert SextetOf(v.alphabet, s[|s| - 1]).Some?;
    }
  }

  lemma FullQuantumLength(v: Variant, s: Str)
    requires |s| >= 4 && InAlphabet(v.alphabet, s[..4]) && DecodeClean(v, s).Some?
    ensures DecodeClean(v, s[4..]).Some?
    ensures |DecodeClean(v, s).value| == 3 + |DecodeClean(v, s[4..]).value|
  {}

  lemma ThreeMore(n: nat)
    ensures (3 + n) % 3 == n % 3
  {}

  /** Key sizes are not multiples of three, so a padded and an unpadded variant never both yield one. */
  lemma {:induction false} PaddingDecides(v: Variant, s: Str)
    requires DecodeClean(v, s).Some? && |DecodeClean(v, s).value| % 3 != 0
    ensures s != [] && (v.padded <==> s[|s| - 1] == PAD)
  {
    if |s| < 4 || !InAlphabet(v.alphabet, s[..4]) {
      assert s != [];
      LastQuantumPadding(v, s);
    } else {
      FullQuantumLength(v, s);
      ThreeMore(|DecodeClean(v, s[4..]).value|);
      PaddingDecides(v, s[4..]);
    }
  }

  datatype KeyError = MissingPrefix | BadEncoding

  predicate HasPrefix(s: Str, prefix: Str)
  {
    |s| >= |prefix| && s[..|prefix|] == prefix
  }

  lemma HasPrefixIff(s: Str, prefix: Str)
    ensures HasPrefix(s, prefix) <==> exists t :: s == prefix + t
  {
    if HasPrefix(s, prefix) {
      assert s == prefix + s[|prefix|..];
    }
  }

  /** Some variant reads the text as this key. */
  ghost predicate Spells(body: Str, size: nat, key: Str)
  {
    |key| == size && exists v :: Decode(v, body) == Some(key)
  }

  lemma SpellsOneKey(body: Str, size: nat, key: Str, other: Str)
    requires Spells(body, size, key) && Spells(body, size, other)
    ensures key == other
  {
    var v :| Decode(v, body) == Some(key);
    var w :| Decode(w, body) == Some(other);
    VariantsAgree(v, w, Clean(body));
  }

  predicate Yields(v: Variant, body: Str, size: nat)
  {
    var raw := Decode(v, body);
    raw.Some? && |raw.value| == size
  }

  lemma FourVariants(v: Variant)
    ensures exists j :: 0 <= j < 4 && VARIANTS[j] == v
  {
    var j := (if v.alphabet.Standard? then 0 else 2) + (if v.padded then 0 else 1);
    assert VARIANTS[j] == v;
  }

  lemma NoVariantLeft(body: Str, size: nat)
    requires forall j :: 0 <= j < 4 ==> !Yields(VARIANTS[j], body, size)
    ensures forall key :: !Spells(body, size, key)
  {
    forall key, v | |key| == size ensures Decode(v, body) != Some(key) {
      FourVariants(v);
      assert !Yields(v, body, size);
    }
  }

  /** The search loop shared by DecodePubkey and DecodePQPubkey. The contract does not mention
    * the order of the variants: every order finds the same key. */
  method DecodeKey(s: Str, prefix: Str, size: nat) returns (r: Result<Str, KeyError>)
    ensures r == Err(MissingPrefix) <==> !HasPrefix(s, prefix)
    ensures HasPrefix(s, prefix) ==>
              forall key :: r == Ok(key) <==> Spells(s[|prefix|..], size, key)
  {
    if !HasPrefix(s, prefix) {
      return Err(MissingPrefix);
    }
    var body := s[|prefix|..];
    for i := 0 to 4
      invariant forall j :: 0 <= j < i ==> !Yields(VARIANTS[j], body, size)
    {
      var raw := Decode(VARIANTS[i], body);
      if raw.Some? && |raw.value| == size {
        assert Spells(body, size, raw.value);
        forall key | Spells(body, size, key) ensures key == raw.value {
          SpellsOneKey(body, size, key, raw.value);
        }
        return Ok(raw.value);
      }
    }
    NoVariantLeft(body, size);
    return Err(BadEncoding);
  }

  function EncodeKey(prefix: Str, key: Str): (s: Str)
  {
    prefix + Encode(key)
  }

  /** Decoding the text of a key gives that key and no other. */
  lemma KeyRoundTrip(prefix: Str, key: Str, other: Str)
    ensures HasPrefix(EncodeKey(prefix, key), prefix)
    ensures Spells(EncodeKey(prefix, key)[|prefix|..], |key|, other) <==> other == key
  {
    var s := EncodeKey(prefix, key);
    assert s[..|prefix|] == prefix && s[|prefix|..] == Encode(key);
    DecodeUndoesEncode(STD, key);
    assert Decode(STD, Encode(key)) == Some(key);
    assert Spells(Encode(key), |key|, key);
    if Spells(Encode(key), |key|, other) {
      SpellsOneKey(Encode(key), |key|, key, other);
    }
  }

  /** A key accepted from padded text is refused by every unpadded variant, and the other way round. */
  lemma PaddedAndRawExclude(v: Variant, w: Variant, body: Str, key: Str)
    requires |key| == 32 || |key| == 1952
    requires Decode(v, body) == Some(key) && v.padded != w.padded
    ensures Decode(w, body).None?
  {
    if Decode(w, body).Some? {
      VariantsAgree(v, w, Clean(body));
      PaddingDecides(v, Clean(body));
      PaddingDecides(w, Clean(body));
    }
  }
}
