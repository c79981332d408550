/** Bytes, Go strings and the big-endian integers of encoding/binary. */
module Bytes {

  type Byte = x: int | 0 <= x < 256

  /** A Go string or byte slice: both are byte sequences to this program. */
  type Str = seq<Byte>

  const TWO_32: int := 0x1_0000_0000
  const TWO_62: int := 0x4000_0000_0000_0000
  const TWO_63: int := 0x8000_0000_0000_0000
  const TWO_64: int := 0x1_0000_0000_0000_0000

  type Int64 = x: int | -TWO_63 <= x < TWO_63

  datatype Option<+T> = None | Some(value: T)

  datatype Result<+T, +E> = Ok(value: T) | Err(error: E)

  /** The value an int64 holds after wrapping around. */
  function Wrap64(x: int): (r: Int64)
  {
    (x + TWO_63) % TWO_64 - TWO_63
  }

  /** A Go string literal, character by character. */
  function Lit(s: string): (r: Str)
    requires forall i :: 0 <= i < |s| ==> s[i] as int < 256
    ensures |r| == |s|
    ensures forall i :: 0 <= i < |s| ==> r[i] == s[i] as int
  {
    seq(|s|, i requires 0 <= i < |s| => s[i] as int)
  }

  function Pow256(k: nat): (r: nat)
    ensures r > 0
  {
    if k == 0 then 1 else 256 * Pow256(k - 1)
  }

  lemma Pow256At4And8()
    ensures Pow256(4) == TWO_32 && Pow256(8) == TWO_64
  {
    assert Pow256(2) == 65536;
    assert Pow256(4) == TWO_32;
    assert Pow256(6) == 65536 * TWO_32;
  }

  /** The low k bytes of n, most significant first. */
  function BigEndian(n: nat, k: nat): (r: Str)
    ensures |r| == k
  {
    if k == 0 then [] else BigEndian(n / 256, k - 1) + [n % 256]
  }

  function FromBigEndian(b: Str): (n: nat)
    ensures n < Pow256(|b|)
  {
    if b == [] then 0 else 256 * FromBigEndian(b[..|b| - 1]) + b[|b| - 1]
  }

  lemma {:induction false} FromBigEndianOf(n: nat, k: nat)
    requires n < Pow256(k)
    ensures FromBigEndian(BigEndian(n, k)) == n
  {
    if k > 0 {
      FromBigEndianOf(n / 256, k - 1);
      assert BigEndian(n, k)[..k - 1] == BigEndian(n / 256, k - 1);
    }
  }

  lemma {:induction false} BigEndianOfFrom(b: Str)
    ensures BigEndian(FromBigEndian(b), |b|) == b
  {
    if b != [] {
      BigEndianOfFrom(b[..|b| - 1]);
      assert FromBigEndian(b) / 256 == FromBigEndian(b[..|b| - 1]);
    }
  }

  lemma DivPow256(n: nat, k: nat)
    ensures n / 256 / Pow256(k) == n / Pow256(k + 1)
  {
    var q := Pow256(k);
    var d, r := n / 256, n % 256;
    var e, t := d / q, d % q;
    assert n == 256 * d + r && d == e * q + t && t < q;
    assert 256 * (e * q + t) == e * (256 * q) + 256 * t;
    DivUnique(n, 256 * q, e, 256 * t + r);
  }

  lemma MulGrows(x: nat, q: nat)
    requires x >= 1
    ensures x * q >= q
  {}

  lemma DivUnique(n: nat, q: nat, d: nat, r: nat)
    requires q > 0 && n == d * q + r && r < q
    ensures n / q == d
  {
    var d', r' := n / q, n % q;
    assert n == d' * q + r';
    if d' < d {
      assert (d - d') * q == d * q - d' * q;
      MulGrows(d - d', q);
    } else if d' > d {
      assert (d' - d) * q == d' * q - d * q;
      MulGrows(d' - d, q);
    }
  }

  /** Byte i from the left is the digit of that weight to base 256. */
  lemma {:induction false} BigEndianDigit(n: nat, k: nat, i: nat)
    requires i < k
    ensures BigEndian(n, k)[i] == n / Pow256(k - 1 - i) % 256
  {
    if i < k - 1 {
      BigEndianDigit(n / 256, k - 1, i);
      DivPow256(n, k - 2 - i);
    }
  }

  /** binary.BigEndian.PutUint32 of uint32(n): the conversion truncates. */
  function U32(n: nat): (r: Str)
    ensures |r| == 4
  {
    BigEndian(n, 4)
  }

  /** binary.BigEndian.Uint32. */
  function FromU32(b: Str): (n: nat)
    requires |b| == 4
    ensures n < TWO_32
  {
    Pow256At4And8();
    FromBigEndian(b)
  }

  lemma FromU32OfU32(n: nat)
    requires n < TWO_32
    ensures FromU32(U32(n)) == n
  {
    Pow256At4And8();
    FromBigEndianOf(n, 4);
  }

  lemma U32OfFromU32(b: Str)
    requires |b| == 4
    ensures U32(FromU32(b)) == b
  {
    BigEndianOfFrom(b);
  }

  /** binary.BigEndian.PutUint64 of uint64(t): two's complement. */
  function I64(t: Int64): (r: Str)
    ensures |r| == 8
  {
    BigEndian(if t < 0 then t + TWO_64 else t, 8)
  }

  /** The bytes are the digits of the time modulo 2^64. */
  lemma I64Digit(t: Int64, i: nat)
    requires i < 8
    ensures I64(t)[i] == (t + TWO_64) % TWO_64 / Pow256(7 - i) % 256
  {
    TwosComplement(t);
    BigEndianDigit(if t < 0 then t + TWO_64 else t, 8, i);
  }

  lemma TwosComplement(t: Int64)
    ensures (t + TWO_64) % TWO_64 == if t < 0 then t + TWO_64 else t
  {}

  function FromI64(b: Str): (t: Int64)
    requires |b| == 8
  {
    Pow256At4And8();
    var n := FromBigEndian(b);
    if n < TWO_63 then n else n - TWO_64
  }

  lemma FromI64OfI64(t: Int64)
    ensures FromI64(I64(t)) == t
  {
    Pow256At4And8();
    FromBigEndianOf(if t < 0 then t + TWO_64 else t, 8);
  }

  lemma I64OfFromI64(b: Str)
    requires |b| == 8
    ensures I64(FromI64(b)) == b
  {
    Pow256At4And8();
    BigEndianOfFrom(b);
  }

  function Pow2(k: nat): (r: nat)
    ensures r > 0
  {
    if k == 0 then 1 else 2 * Pow2(k - 1)
  }

  /** No element occurs twice. */
  ghost predicate NoDup<T>(s: seq<T>)
  {
    forall i, j :: 0 <= i < j < |s| ==> s[i] != s[j]
  }

  function HexDigit(n: nat): (c: Byte)
    requires n < 16
  {
    if n < 10 then 48 + n else 87 + n
  }

  /** hex.EncodeToString. */
  function Hex(b: Str): (s: Str)
    ensures |s| == 2 * |b|
  {
    if b == [] then [] else [HexDigit(b[0] / 16), HexDigit(b[0] % 16)] + Hex(b[1..])
  }

  function HexValue(c: Byte): (n: int)
  {
    if '0' as int <= c <= '9' as int then c - '0' as int else c - 'a' as int + 10
  }

  /** hex.EncodeToString writes the high and then the low half of every byte. */
  lemma {:induction false} HexDigits(b: Str, i: nat)
    requires i < |b|
    ensures 16 * HexValue(Hex(b)[2 * i]) + HexValue(Hex(b)[2 * i + 1]) == b[i]
  {
    if i > 0 {
      HexDigits(b[1..], i - 1);
      assert Hex(b)[2 * i] == Hex(b[1..])[2 * (i - 1)] && Hex(b)[2 * i + 1] == Hex(b[1..])[2 * (i - 1) + 1];
    }
  }

  /** Different bytes have different texts. */
  lemma HexInjective(b: Str, c: Str)
    requires Hex(b) == Hex(c)
    ensures b == c
  {
    assert |b| == |c|;
    forall i | 0 <= i < |b| ensures b[i] == c[i] {
      HexDigits(b, i);
      HexDigits(c, i);
    }
  }

  ghost predicate IsHex(s: Str)
  {
    forall i :: 0 <= i < |s| ==> 48 <= s[i] <= 57 || 97 <= s[i] <= 102
  }

  lemma {:induction false} HexIsHex(b: Str)
    ensures IsHex(Hex(b))
  {
    if b != [] {
      HexIsHex(b[1..]);
    }
  }
}
