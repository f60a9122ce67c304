/**
 The bytes themselves: the formats of the MessagePack specification, big-endian fields, and what PHP's parser does with
 bytes that pack never writes.
 */
module MsgpackFormats {
  import opened Bytes
  import opened Msgpack
  import opened MsgpackRoundTrip
  import opened Framing

  /** The number a field stands for: the first byte counts most. */
  ghost function BigEndian(b: seq<byte>): nat {
    if b == [] then 0 else BigEndian(b[..|b| - 1]) * 256 + b[|b| - 1] as int
  }

  lemma Field2IsBigEndian(b: seq<byte>)
    requires |b| == 2
    ensures BigEndian(b) == Field2(b, 0)
  {
    assert b[..1][..0] == [];
    assert BigEndian(b[..1]) == b[0] as int;
  }

  lemma Field4IsBigEndian(b: seq<byte>)
    requires |b| == 4
    ensures BigEndian(b) == Field4(b, 0)
  {
    assert b[..3][..2] == b[..2] && b[..4] == b;
    Field2IsBigEndian(b[..2]);
    assert BigEndian(b[..3]) == BigEndian(b[..2]) * 256 + b[2] as int;
  }

  lemma Field8IsBigEndian(b: seq<byte>)
    requires |b| == 8
    ensures BigEndian(b) == Field8(b, 0)
  {
    Field4IsBigEndian(b[..4]);
    assert b[..5][..4] == b[..4] && b[..6][..5] == b[..5] && b[..7][..6] == b[..6];
    assert BigEndian(b[..5]) == BigEndian(b[..4]) * 256 + b[4] as int;
    assert BigEndian(b[..6]) == BigEndian(b[..5]) * 256 + b[5] as int;
    assert BigEndian(b[..7]) == BigEndian(b[..6]) * 256 + b[6] as int;
  }

  /** The fields are big-endian, and keep as many low bits as they have. */
  lemma FieldsAreBigEndian(n: int)
    ensures BigEndian(BE2(n)) == n % TWO_16
    ensures BigEndian(BE4(n)) == n % TWO_32
    ensures BigEndian(BE8(n)) == n % TWO_64
  {
    hide BE2, BE4, BE8, BigEndian, Field2, Field4, Field8;
    Field2Reads(BE2(n), 0, n);
    Field4Reads(BE4(n), 0, n);
    Field8Reads(BE8(n), 0, n);
    Field2IsBigEndian(BE2(n));
    Field4IsBigEndian(BE4(n));
    Field8IsBigEndian(BE8(n));
  }

  /** The length in front of a payload is in network order (internal/protocol/frame.go:40-42). */
  lemma HeaderIsBigEndian(payload: seq<byte>)
    requires |payload| < TWO_32
    ensures |FrameOf(payload)| == 4 + |payload| && FrameOf(payload)[4..] == payload
    ensures BigEndian(FrameOf(payload)[..4]) == |payload|
  {
    FieldsAreBigEndian(|payload|);
    assert FrameOf(payload)[..4] == BE4(|payload|);
  }

  lemma TwoBytesBack(b: seq<byte>, offset: nat, high: nat)
    requires offset + 2 <= |b|
    ensures BE2(high * TWO_16 + Field2(b, offset)) == b[offset..offset + 2]
  {
    var n, low := high * TWO_16 + Field2(b, offset), b[offset + 1] as int;
    assert n == (high * 256 + b[offset] as int) * 256 + low;
    assert n % 256 == low && n / 256 == high * 256 + b[offset] as int;
  }

  /** The header of a frame is how its length is written. */
  lemma AnnouncedLength(s: seq<byte>)
    requires |s| >= 4
    ensures Field4(s, 0) == BigEndian(s[..4]) && BE4(Field4(s, 0)) == s[..4]
  {
    var n, high, low := Field4(s, 0), Field2(s, 0), Field2(s, 2);
    assert Field4(s[..4], 0) == n;
    Field4IsBigEndian(s[..4]);
    TwoBytesBack(s, 0, 0);
    TwoBytesBack(s, 2, high);
    assert n == high * TWO_16 + low && n / TWO_16 == high;
    hide BE2, Field2, BigEndian;
    assert BE4(n) == BE2(high) + BE2(n);
    assert s[..4] == s[0..2] + s[2..4];
  }

  /**
   What a reader takes off a stream: a payload exactly if its frame, neither empty nor above the limit, is what the
   stream begins with; a length above the limit, or zero, is refused with the header gone; anything else is a cut.
   */
  lemma FramesReadExactly(s: seq<byte>, max: nat, payload: seq<byte>)
    requires |payload| < TWO_32
    ensures var next := NextFrame(s, max);
            && (next.read == Frame(payload) <==> 0 < |payload| <= max && FrameOf(payload) <= s)
            && (next.read == Frame(payload) ==> next.rest == s[4 + |payload|..])
            && (next.read.TooLarge? <==> |s| >= 4 && BigEndian(s[..4]) > max)
            && (next.read.EmptyFrame? <==> |s| >= 4 && BigEndian(s[..4]) == 0)
            && (next.read.TooLarge? || next.read.EmptyFrame? ==> next.rest == s[4..])
  {
    if |s| >= 4 {
      AnnouncedLength(s);
      var n := Field4(s, 0);
      hide Field4, BE4, BigEndian;
      if NextFrame(s, max).read == Frame(payload) {
        assert s[..4 + n] == s[..4] + s[4..4 + n];
        assert FrameOf(payload) == s[..4 + n];
      }
      if FrameOf(payload) <= s && 0 < |payload| <= max {
        assert s == FrameOf(payload) + s[4 + |payload|..];
        if max < TWO_32 {
          FrameReads(payload, s[4 + |payload|..], max);
        } else {
          LongLimit(payload, s[4 + |payload|..], max);
        }
      }
    }
  }

  lemma LongLimit(payload: seq<byte>, rest: seq<byte>, max: nat)
    requires 0 < |payload| < TWO_32 <= max
    ensures NextFrame(FrameOf(payload) + rest, max) == Step(Frame(payload), rest)
  {
    FrameReads(payload, rest, |payload|);
  }

  /** A format byte and a field of this size that holds n. */
  ghost predicate Coded(b: seq<byte>, format: byte, size: nat, n: int) {
    && |b| == 1 + size && b[0] == format
    && (size == 1 ==> BigEndian(b[1..]) == n % 256)
    && (size == 2 ==> BigEndian(b[1..]) == n % TWO_16)
    && (size == 4 ==> BigEndian(b[1..]) == n % TWO_32)
    && (size == 8 ==> BigEndian(b[1..]) == n % TWO_64)
  }

  lemma OneByteField(format: byte, n: int)
    ensures Coded([format, Low(n)], format, 1, n)
  {
    var b: seq<byte> := [format, Low(n)];
    assert b[1..] == [Low(n)] && b[1..][..0] == [];
  }

  lemma WideFields(format: byte, n: int)
    ensures Coded([format] + BE2(n), format, 2, n)
    ensures Coded([format] + BE4(n), format, 4, n)
    ensures Coded([format] + BE8(n), format, 8, n)
  {
    FieldsAreBigEndian(n);
    hide BE2, BE4, BE8, BigEndian;
    assert ([format] + BE2(n))[1..] == BE2(n);
    assert ([format] + BE4(n))[1..] == BE4(n);
    assert ([format] + BE8(n))[1..] == BE8(n);
  }

  /** The integer formats: positive and negative fixint, uint 8 to 64, int 8 to 64, each in its own range. */
  lemma IntFormats(n: int)
    requires Int64(n)
    ensures var b := Pack(Int(n));
            && (0 <= n <= 127 ==> b == [n]) && (-32 <= n < 0 ==> b == [256 + n])
            && (128 <= n <= 255 ==> Coded(b, 0xcc, 1, n))
            && (256 <= n <= 65_535 ==> Coded(b, 0xcd, 2, n))
            && (65_536 <= n <= 4_294_967_295 ==> Coded(b, 0xce, 4, n))
            && (4_294_967_296 <= n ==> Coded(b, 0xcf, 8, n))
            && (-128 <= n < -32 ==> Coded(b, 0xd0, 1, n))
            && (-32_768 <= n < -128 ==> Coded(b, 0xd1, 2, n))
            && (-2_147_483_648 <= n < -32_768 ==> Coded(b, 0xd2, 4, n))
            && (n < -2_147_483_648 ==> Coded(b, 0xd3, 8, n))
  {
    OneByteField(0xcc, n);
    OneByteField(0xd0, n);
    WideFields(0xcd, n);
    WideFields(0xce, n);
    WideFields(0xcf, n);
    WideFields(0xd1, n);
    WideFields(0xd2, n);
    WideFields(0xd3, n);
    hide Coded, BE2, BE4, BE8;
  }

  /** The formats of nil, booleans, strings, binaries, arrays and maps. */
  lemma LengthFormats(len: nat)
    requires len < TWO_32
    ensures Pack(Nil) == [0xc0] && Pack(Bool(false)) == [0xc2] && Pack(Bool(true)) == [0xc3]
    ensures var b := StrPrefix(len);
            && (len <= 31 ==> b == [0xa0 + len]) && (31 < len <= 255 ==> Coded(b, 0xd9, 1, len))
            && (255 < len <= 65_535 ==> Coded(b, 0xda, 2, len)) && (65_535 < len ==> Coded(b, 0xdb, 4, len))
    ensures var b := BinPrefix(len);
            && (len <= 255 ==> Coded(b, 0xc4, 1, len))
            && (255 < len <= 65_535 ==> Coded(b, 0xc5, 2, len)) && (65_535 < len ==> Coded(b, 0xc6, 4, len))
    ensures var b := ArrPrefix(len);
            && (len <= 15 ==> b == [0x90 + len])
            && (15 < len <= 65_535 ==> Coded(b, 0xdc, 2, len)) && (65_535 < len ==> Coded(b, 0xdd, 4, len))
    ensures var b := MapPrefix(len);
            && (len <= 15 ==> b == [0x80 + len])
            && (15 < len <= 65_535 ==> Coded(b, 0xde, 2, len)) && (65_535 < len ==> Coded(b, 0xdf, 4, len))
  {
    OneByteField(0xd9, len);
    OneByteField(0xc4, len);
    WideFields(0xda, len);
    WideFields(0xdb, len);
    WideFields(0xc5, len);
    WideFields(0xc6, len);
    WideFields(0xdc, len);
    WideFields(0xdd, len);
    WideFields(0xde, len);
    WideFields(0xdf, len);
    hide Coded, BE2, BE4, BE8;
  }

  // ----- bytes that pack never writes -----

  /** Type bytes the parser has no case for: never used, extensions, floats. */
  predicate Unsupported(b: byte) { b == 0xc1 || 0xc7 <= b <= 0xcb || 0xd4 <= b <= 0xd8 }

  /** The bytes the length or number field of a type byte needs; for the one-byte fields but 0xd0 none are needed. */
  function FieldSize(b: byte): nat {
    if b in [0xc5, 0xcd, 0xd1, 0xda, 0xdc, 0xde] then 2
    else if b in [0xc6, 0xce, 0xd2, 0xdb, 0xdd, 0xdf] then 4
    else if b == 0xcf || b == 0xd3 then 8
    else if b == 0xd0 then 1
    else 0
  }

  /** A value fails at its first byte exactly if there is none, it has no case, or a field it needs is cut short. */
  lemma HeadFailsExactly(data: seq<byte>, offset: nat)
    requires offset < |data|
    ensures ReadHead(data, offset).NoHead? <==>
            Unsupported(data[offset]) || offset + 1 + FieldSize(data[offset]) > |data|
  {
  }

  /** A string that is cut short is not refused: it is read as far as it goes, and the offset lies behind the data. */
  lemma CutStringsPass(s: seq<byte>, k: nat)
    requires |s| < TWO_32 && k <= |s|
    ensures UnpackAt(StrPrefix(|s|) + s[..k], 0) == Got(Str(s[..k]), |StrPrefix(|s|)| + |s|)
  {
    var prefix := StrPrefix(|s|);
    var data := prefix + s[..k];
    assert data[0..|prefix|] == prefix;
    StrReads(data, 0, |s|);
    hide StrPrefix, ReadHead;
    assert Substr(data, |prefix|, |s|) == s[..k];
  }

  /** A one-byte length or number that is missing counts as 0. */
  lemma MissingBytesAreZero()
    ensures UnpackAt([0xcc], 0) == Got(Int(0), 2) && UnpackAt([0xd9], 0) == Got(Str([]), 2)
  {
  }

  // ----- keys -----

  /** What decimal digits stand for. */
  ghost function ValueOf(d: seq<byte>): int {
    if d == [] then 0 else ValueOf(d[..|d| - 1]) * 10 + (d[|d| - 1] as int - 0x30)
  }

  /** Digits writes a number in decimal, without leading zeros. */
  lemma {:induction false} DigitsAreDecimal(n: nat)
    ensures ValueOf(Digits(n)) == n && (n > 0 ==> Digits(n)[0] != 0x30)
    ensures forall k :: 0 <= k < |Digits(n)| ==> 0x30 <= Digits(n)[k] <= 0x39
  {
    if n < 10 {
      assert Digits(n)[..0] == [];
    } else {
      DigitsAreDecimal(n / 10);
      assert Digits(n)[..|Digits(n)| - 1] == Digits(n / 10);
    }
  }

  /** PHP's casts of what stands for a key: nothing and false are empty, true is 1, arrays are "Array". */
  lemma KeyCasts(n: int, items: seq<Value>, entries: seq<Entry>)
    ensures KeyOf(Nil) == KeyOf(Bool(false)) == [] && KeyOf(Bool(true)) == KeyOf(Int(1))
    ensures KeyOf(Arr(items)) == KeyOf(Map(entries)) && |KeyOf(Map(entries))| == 5
    ensures n >= 0 ==> ValueOf(KeyOf(Int(n))) == n
    ensures n < 0 ==> KeyOf(Int(n))[0] == 0x2d && ValueOf(KeyOf(Int(n))[1..]) == -n
  {
    DigitsAreDecimal(if n >= 0 then n else -n);
    assert Digits(1) == [0x31];
    assert n < 0 ==> KeyOf(Int(n))[1..] == Digits(-n);
  }

  function Keys(entries: seq<Entry>): (keys: seq<seq<byte>>)
    ensures |keys| == |entries|
  {
    seq(|entries|, i requires 0 <= i < |entries| => entries[i].key)
  }

  lemma KeysOfMore(first: Entry, rest: seq<Entry>)
    ensures Keys([first] + rest) == [first.key] + Keys(rest)
  {
  }

  lemma InFront(first: seq<byte>, rest: seq<seq<byte>>, key: seq<byte>)
    ensures key in [first] + rest <==> key == first || key in rest
  {
  }

  /** Setting a key keeps every key in its place; a new one comes last. */
  lemma {:induction false} SetEntryKeepsPlaces(entries: seq<Entry>, key: seq<byte>, value: Value)
    ensures Keys(SetEntry(entries, key, value)) == if key in Keys(entries) then Keys(entries) else Keys(entries) + [key]
  {
    if entries == [] {
      assert Keys([Entry(key, value)]) == [key];
    } else {
      var first, rest := entries[0], entries[1..];
      assert entries == [first] + rest;
      KeysOfMore(first, rest);
      InFront(first.key, Keys(rest), key);
      KeysOfMore(Entry(key, value), rest);
      KeysOfMore(first, SetEntry(rest, key, value));
      hide Keys;
      SetEntryKeepsPlaces(rest, key, value);
      assert [first.key] + (Keys(rest) + [key]) == [first.key] + Keys(rest) + [key];
    }
  }
}
