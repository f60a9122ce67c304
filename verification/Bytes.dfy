/** Bytes and the big-endian fields of PHP's pack('n' | 'N' | 'J') and unpack. */
module Bytes {

  type byte = b: int | 0 <= b < 256

  const TWO_16 := 0x1_0000
  const TWO_32 := 0x1_0000_0000
  const TWO_63 := 0x8000_0000_0000_0000
  const TWO_64 := 0x1_0000_0000_0000_0000

  /** chr of an integer, which keeps the low eight bits. */
  function Low(n: int): byte { n % 256 }

  /** pack('n', n): the low 16 bits, also of a negative n. */
  function BE2(n: int): (b: seq<byte>)
    ensures |b| == 2
  {
    [Low(n / 256), Low(n)]
  }

  /** pack('N', n). */
  function BE4(n: int): (b: seq<byte>)
    ensures |b| == 4
  {
    BE2(n / TWO_16) + BE2(n)
  }

  /** pack('J', n). */
  function BE8(n: int): (b: seq<byte>)
    ensures |b| == 8
  {
    BE4(n / TWO_32) + BE4(n)
  }

  /** The 16-bit field at offset, and so on. */
  function Field2(data: seq<byte>, offset: nat): (n: nat)
    requires offset + 2 <= |data|
    ensures n < TWO_16
  {
    data[offset] as int * 256 + data[offset + 1] as int
  }

  function Field4(data: seq<byte>, offset: nat): (n: nat)
    requires offset + 4 <= |data|
    ensures n < TWO_32
  {
    Field2(data, offset) * TWO_16 + Field2(data, offset + 2)
  }

  function Field8(data: seq<byte>, offset: nat): (n: nat)
    requires offset + 8 <= |data|
    ensures n < TWO_64
  {
    Field4(data, offset) * TWO_32 + Field4(data, offset + 4)
  }

  /** The bytes b stand at offset in data. */
  predicate At(data: seq<byte>, offset: nat, b: seq<byte>) {
    offset + |b| <= |data| && data[offset..offset + |b|] == b
  }

  lemma AtConcat(data: seq<byte>, offset: nat, a: seq<byte>, b: seq<byte>)
    requires At(data, offset, a + b)
    ensures At(data, offset, a) && At(data, offset + |a|, b)
  {
    assert data[offset..offset + |a|] == (a + b)[..|a|];
    assert data[offset + |a|..offset + |a| + |b|] == (a + b)[|a|..];
  }

  lemma AtIndex(data: seq<byte>, offset: nat, b: seq<byte>, i: nat)
    requires At(data, offset, b) && i < |b|
    ensures data[offset + i] == b[i]
  {
    assert data[offset..offset + |b|][i] == b[i];
  }

  /** A remainder split into its upper and lower half. */
  lemma SplitRemainder(n: int, half: nat, whole: nat)
    requires half > 0 && whole == half * half
    ensures n % whole == n / half % half * half + n % half
  {
    var q, r := n / half, n % half;
    var t, u := q / half, q % half;
    var low := u * half + r;
    assert q == t * half + u;
    assert n == q * half + r;
    assert n == (t * half + u) * half + r;
    Regroup(t, u, half, r);
    assert n == t * whole + low;
    assert 0 <= low < whole by { Below(u, half, r); }
    UniqueRemainder(n, whole, t, low);
  }

  lemma Regroup(t: int, u: int, half: int, r: int)
    ensures (t * half + u) * half + r == t * (half * half) + (u * half + r)
  {
  }

  lemma Below(u: nat, half: nat, r: nat)
    requires u < half && r < half
    ensures u * half + r < half * half
  {
    assert u * half <= (half - 1) * half;
  }

  lemma OnlyZeroMultiple(k: int, whole: nat)
    requires -(whole as int) < k * whole && k * whole < whole
    ensures k == 0
  {
    assert k >= 1 ==> k * whole >= whole;
    assert k <= -1 ==> (-k) * whole >= whole;
  }

  lemma UniqueRemainder(n: int, whole: nat, t: int, low: nat)
    requires whole > 0 && n == t * whole + low && low < whole
    ensures n % whole == low
  {
    var t2, low2 := n / whole, n % whole;
    assert n == t2 * whole + low2;
    assert (t - t2) * whole == low2 - low;
    OnlyZeroMultiple(t - t2, whole);
  }

  lemma Field2Reads(data: seq<byte>, offset: nat, n: int)
    requires At(data, offset, BE2(n))
    ensures Field2(data, offset) == n % TWO_16
  {
    AtIndex(data, offset, BE2(n), 0);
    AtIndex(data, offset, BE2(n), 1);
  }

  lemma Field4Reads(data: seq<byte>, offset: nat, n: int)
    requires At(data, offset, BE4(n))
    ensures Field4(data, offset) == n % TWO_32
  {
    AtConcat(data, offset, BE2(n / TWO_16), BE2(n));
    Field2Reads(data, offset, n / TWO_16);
    Field2Reads(data, offset + 2, n);
    hide Field2, At, BE2;
    SplitRemainder(n, TWO_16, TWO_32);
  }

  lemma Field8Reads(data: seq<byte>, offset: nat, n: int)
    requires At(data, offset, BE8(n))
    ensures Field8(data, offset) == n % TWO_64
  {
    AtConcat(data, offset, BE4(n / TWO_32), BE4(n));
    Field4Reads(data, offset, n / TWO_32);
    Field4Reads(data, offset + 4, n);
    hide Field4, At, BE4;
    SplitRemainder(n, TWO_32, TWO_64);
  }
}
