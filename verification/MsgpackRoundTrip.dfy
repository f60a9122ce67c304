/**
 unpackAt undoes pack, whatever follows: pack is self-delimiting and injective, up to binaries being read
 back as strings.
 */
module MsgpackRoundTrip {
  import opened Basics
  import opened Bytes
  import opened Msgpack

  // ----- the values pack is meant for -----

  ghost predicate InDomain(v: Value)
    decreases v, 0
  {
    match v
    case Int(n) => Int64(n)
    case Str(s) => |s| < TWO_32
    case Bin(s) => |s| < TWO_32
    case Arr(items) => |items| < TWO_32 && ItemsInDomain(items)
    case Map(entries) =>
      |entries| < TWO_32 && EntriesInDomain(entries) && DistinctKeys(entries) && !IsList(entries)
    case _ => true
  }

  /** array_is_list: PHP does not tell a map with the keys 0, 1, ... in order from a list (29-33). */
  ghost predicate IsList(entries: seq<Entry>) {
    forall i :: 0 <= i < |entries| ==> entries[i].key == Decimal(i)
  }

  ghost predicate ItemsInDomain(items: seq<Value>)
    decreases items, 0
  {
    items != [] ==> InDomain(items[0]) && ItemsInDomain(items[1..])
  }

  ghost predicate EntriesInDomain(entries: seq<Entry>)
    decreases entries, 0
  {
    entries != [] ==>
      |entries[0].key| < TWO_32 && InDomain(entries[0].value) && EntriesInDomain(entries[1..])
  }

  ghost predicate DistinctKeys(entries: seq<Entry>) {
    forall i, j :: 0 <= i < j < |entries| ==> entries[i].key != entries[j].key
  }

  /** The value as it comes back: binaries as strings. */
  function AsRead(v: Value): Value
    decreases v, 0
  {
    match v
    case Bin(s) => Str(s)
    case Arr(items) => Arr(ItemsAsRead(items))
    case Map(entries) => Map(EntriesAsRead(entries))
    case _ => v
  }

  function ItemsAsRead(items: seq<Value>): (r: seq<Value>)
    decreases items, 0
  {
    if items == [] then [] else [AsRead(items[0])] + ItemsAsRead(items[1..])
  }

  function EntriesAsRead(entries: seq<Entry>): (r: seq<Entry>)
    decreases entries, 0
  {
    if entries == [] then []
    else [Entry(entries[0].key, AsRead(entries[0].value))] + EntriesAsRead(entries[1..])
  }

  // ----- heads -----

  /** n in two's complement of that many values. */
  function Wrapped(n: int, whole: nat): int { if n < 0 then n + whole else n }

  lemma WrappedIsRemainder(n: int, whole: nat)
    requires 0 <= n + whole && n < whole
    ensures n % whole == Wrapped(n, whole)
  {
    UniqueRemainder(n, whole, if n < 0 then -1 else 0, Wrapped(n, whole));
  }

  /** The number field behind each marker of packInt. */
  lemma IntFields(data: seq<byte>, offset: nat, n: int)
    requires Int64(n) && At(data, offset, PackInt(n))
    ensures offset < |data| && data[offset] == PackInt(n)[0]
    ensures |PackInt(n)| == 2 ==> offset + 1 < |data| && data[offset + 1] == Wrapped(n, 256)
    ensures |PackInt(n)| == 3 ==> U16(data, offset + 1) == Some(Wrapped(n, TWO_16))
    ensures |PackInt(n)| == 5 ==> U32(data, offset + 1) == Some(Wrapped(n, TWO_32))
    ensures |PackInt(n)| == 9 ==> U64(data, offset + 1) == Some(Signed(Wrapped(n, TWO_64), TWO_63))
  {
    var b := PackInt(n);
    AtIndex(data, offset, b, 0);
    if |b| == 2 {
      AtIndex(data, offset, b, 1);
      WrappedIsRemainder(n, 256);
    } else if |b| > 2 {
      assert b == [b[0]] + b[1..];
      AtConcat(data, offset, [b[0]], b[1..]);
      hide BE2, BE4, BE8, Low, Field2, Field4, Field8, Wrapped;
      if |b| == 3 {
        assert b[1..] == BE2(n);
        Field2Reads(data, offset + 1, n);
        WrappedIsRemainder(n, TWO_16);
      } else if |b| == 5 {
        assert b[1..] == BE4(n);
        Field4Reads(data, offset + 1, n);
        WrappedIsRemainder(n, TWO_32);
      } else {
        assert b[1..] == BE8(n);
        Field8Reads(data, offset + 1, n);
        WrappedIsRemainder(n, TWO_64);
      }
    }
  }

  /** What the markers of packInt mean to the parser. */
  lemma IntMarkers(data: seq<byte>, offset: nat)
    requires offset < |data|
    ensures var b: int := data[offset]; var o := offset + 1; var r := ReadHead(data, offset);
            && (b <= 0x7f ==> r == HeadRead(IntHead(b), o))
            && (b >= 0xe0 ==> r == HeadRead(IntHead(b - 256), o))
            && (b == 0xcc ==> r == HeadRead(IntHead(U8(data, o)), o + 1))
            && (b == 0xcd ==> r == IntField(U16(data, o), o + 2))
            && (b == 0xce ==> r == IntField(U32(data, o), o + 4))
            && (b == 0xcf || b == 0xd3 ==> r == IntField(U64(data, o), o + 8))
            && (b == 0xd0 && o < |data| ==> r == HeadRead(IntHead(Signed(data[o], 0x80)), o + 1))
            && (b == 0xd1 && U16(data, o).Some? ==>
                 r == HeadRead(IntHead(Signed(U16(data, o).value, 0x8000)), o + 2))
            && (b == 0xd2 && U32(data, o).Some? ==>
                 r == HeadRead(IntHead(Signed(U32(data, o).value, 0x80000000)), o + 4))
  {
    hide U8, U16, U32, U64, Signed, IntField;
  }

  lemma IntReads(data: seq<byte>, offset: nat, n: int)
    requires Int64(n) && At(data, offset, PackInt(n))
    ensures offset < |data|
    ensures ReadHead(data, offset) == HeadRead(IntHead(n), offset + |PackInt(n)|)
  {
    IntFields(data, offset, n);
    IntMarkers(data, offset);
    hide ReadHead, At, BE2, BE4, BE8, U16, U32, U64;
    if |PackInt(n)| == 1 {
      WrappedIsRemainder(n, 256);
    } else {
      hide Low;
    }
  }

  /** The three prefixes of up to four length bytes share their shape: a marker and a big-endian field. */
  lemma PrefixReads(data: seq<byte>, offset: nat, b: seq<byte>, len: nat)
    requires len < TWO_32 && At(data, offset, b) && |b| > 0
    requires |b| == 2 ==> len < 256 && b[1] == len
    requires |b| == 3 ==> len < TWO_16 && b[1..] == BE2(len)
    requires |b| == 5 ==> b[1..] == BE4(len)
    ensures offset < |data| && data[offset] == b[0]
    ensures |b| == 2 ==> U8(data, offset + 1) == len
    ensures |b| == 3 ==> U16(data, offset + 1) == Some(len)
    ensures |b| == 5 ==> U32(data, offset + 1) == Some(len)
  {
    AtIndex(data, offset, b, 0);
    if |b| == 2 {
      AtIndex(data, offset, b, 1);
    } else if |b| == 3 || |b| == 5 {
      assert b == [b[0]] + b[1..];
      AtConcat(data, offset, [b[0]], b[1..]);
      hide BE2, BE4, Field2, Field4;
      if |b| == 3 {
        Field2Reads(data, offset + 1, len);
      } else {
        Field4Reads(data, offset + 1, len);
      }
    }
  }

  /** What the markers of strings, binaries and containers mean to the parser. */
  lemma PrefixMarkers(data: seq<byte>, offset: nat)
    requires offset < |data|
    ensures var b: int := data[offset]; var o := offset + 1; var r := ReadHead(data, offset);
            && (0xa0 <= b <= 0xbf ==> r == HeadRead(StrHead(b - 0xa0), o))
            && (0x90 <= b <= 0x9f ==> r == HeadRead(ArrHead(b - 0x90), o))
            && (0x80 <= b <= 0x8f ==> r == HeadRead(MapHead(b - 0x80), o))
            && (b == 0xc4 || b == 0xd9 ==> r == HeadRead(StrHead(U8(data, o)), o + 1))
    ensures var b: int := data[offset]; var o := offset + 1; var r := ReadHead(data, offset);
            U16(data, o).Some? ==>
              && (b == 0xc5 || b == 0xda ==> r == HeadRead(StrHead(U16(data, o).value), o + 2))
              && (b == 0xdc ==> r == HeadRead(ArrHead(U16(data, o).value), o + 2))
              && (b == 0xde ==> r == HeadRead(MapHead(U16(data, o).value), o + 2))
    ensures var b: int := data[offset]; var o := offset + 1; var r := ReadHead(data, offset);
            U32(data, o).Some? ==>
              && (b == 0xc6 || b == 0xdb ==> r == HeadRead(StrHead(U32(data, o).value), o + 4))
              && (b == 0xdd ==> r == HeadRead(ArrHead(U32(data, o).value), o + 4))
              && (b == 0xdf ==> r == HeadRead(MapHead(U32(data, o).value), o + 4))
  {
    hide U8, U16, U32;
  }

  lemma StrReads(data: seq<byte>, offset: nat, len: nat)
    requires len < TWO_32 && At(data, offset, StrPrefix(len))
    ensures offset < |data|
    ensures ReadHead(data, offset) == HeadRead(StrHead(len), offset + |StrPrefix(len)|)
  {
    PrefixReads(data, offset, StrPrefix(len), len);
    PrefixMarkers(data, offset);
    hide ReadHead, At, BE2, BE4, U8, U16, U32;
  }

  lemma BinReads(data: seq<byte>, offset: nat, len: nat)
    requires len < TWO_32 && At(data, offset, BinPrefix(len))
    ensures offset < |data|
    ensures ReadHead(data, offset) == HeadRead(StrHead(len), offset + |BinPrefix(len)|)
  {
    PrefixReads(data, offset, BinPrefix(len), len);
    PrefixMarkers(data, offset);
    hide ReadHead, At, BE2, BE4, U8, U16, U32;
  }

  lemma ArrReads(data: seq<byte>, offset: nat, count: nat)
    requires count < TWO_32 && At(data, offset, ArrPrefix(count))
    ensures offset < |data|
    ensures ReadHead(data, offset) == HeadRead(ArrHead(count), offset + |ArrPrefix(count)|)
  {
    PrefixReads(data, offset, ArrPrefix(count), count);
    PrefixMarkers(data, offset);
    hide ReadHead, At, BE2, BE4, U8, U16, U32;
  }

  lemma MapReads(data: seq<byte>, offset: nat, count: nat)
    requires count < TWO_32 && At(data, offset, MapPrefix(count))
    ensures offset < |data|
    ensures ReadHead(data, offset) == HeadRead(MapHead(count), offset + |MapPrefix(count)|)
  {
    PrefixReads(data, offset, MapPrefix(count), count);
    PrefixMarkers(data, offset);
    hide ReadHead, At, BE2, BE4, U8, U16, U32;
  }

  lemma SubstrReads(data: seq<byte>, offset: nat, s: seq<byte>)
    requires At(data, offset, s)
    ensures Substr(data, offset, |s|) == s
  {
  }

  // ----- an encoder that may abbreviate -----

  /**
   The parser casts keys to strings, so some keys have a second, shorter encoding: that of the integer or of
   the empty array they are the cast of. A thrifty encoder uses it, and writes binaries as the strings they are
   read back as; pack does neither.
   */
  ghost predicate Castable(key: seq<byte>) {
    key == ARRAY || exists n :: Int64(n) && Decimal(n) == key
  }

  ghost function Abbreviation(key: seq<byte>): (v: Value)
    requires Castable(key)
    ensures KeyOf(v) == key && (v == Arr([]) || (v.Int? && Int64(v.n)))
  {
    if key == ARRAY then Arr([]) else var n :| Int64(n) && Decimal(n) == key; Int(n)
  }

  ghost function KeyEncoding(key: seq<byte>, thrifty: bool): seq<byte> {
    if thrifty && Castable(key) then Pack(Abbreviation(key)) else PackStr(key)
  }

  ghost function Encoding(v: Value, thrifty: bool): seq<byte>
    decreases v, 0
  {
    match v
    case Bin(s) => if thrifty then PackStr(s) else Pack(v)
    case Arr(items) => ArrPrefix(|items|) + ItemsEncoding(items, thrifty)
    case Map(entries) => MapPrefix(|entries|) + EntriesEncoding(entries, thrifty)
    case _ => Pack(v)
  }

  ghost function ItemsEncoding(items: seq<Value>, thrifty: bool): seq<byte>
    decreases items, 0
  {
    if items == [] then [] else Encoding(items[0], thrifty) + ItemsEncoding(items[1..], thrifty)
  }

  ghost function EntriesEncoding(entries: seq<Entry>, thrifty: bool): seq<byte>
    decreases entries, 0
  {
    if entries == [] then []
    else KeyEncoding(entries[0].key, thrifty) + Encoding(entries[0].value, thrifty)
         + EntriesEncoding(entries[1..], thrifty)
  }

  lemma {:induction false} PackIsPlainEncoding(v: Value)
    ensures Encoding(v, false) == Pack(v)
    decreases v, 0
  {
    match v
    case Arr(items) => ItemsArePlain(items);
    case Map(entries) => EntriesArePlain(entries);
    case _ =>
  }

  lemma {:induction false} ItemsArePlain(items: seq<Value>)
    ensures ItemsEncoding(items, false) == PackItems(items)
    decreases items, 0
  {
    if items != [] {
      PackIsPlainEncoding(items[0]);
      ItemsArePlain(items[1..]);
    }
  }

  lemma {:induction false} EntriesArePlain(entries: seq<Entry>)
    ensures EntriesEncoding(entries, false) == PackEntries(entries)
    decreases entries, 0
  {
    if entries != [] {
      PackIsPlainEncoding(entries[0].value);
      EntriesArePlain(entries[1..]);
    }
  }

  // ----- reading an encoding back -----

  lemma StringReads(data: seq<byte>, offset: nat, s: seq<byte>)
    requires |s| < TWO_32 && At(data, offset, PackStr(s))
    ensures UnpackAt(data, offset) == Got(Str(s), offset + |PackStr(s)|)
  {
    hide ReadHead, StrPrefix, Substr, At;
    AtConcat(data, offset, StrPrefix(|s|), s);
    StrReads(data, offset, |s|);
    SubstrReads(data, offset + |StrPrefix(|s|)|, s);
  }

  lemma BinaryReads(data: seq<byte>, offset: nat, s: seq<byte>)
    requires |s| < TWO_32 && At(data, offset, Pack(Bin(s)))
    ensures UnpackAt(data, offset) == Got(Str(s), offset + |Pack(Bin(s))|)
  {
    hide ReadHead, BinPrefix, Substr, At;
    assert Pack(Bin(s)) == BinPrefix(|s|) + s;
    AtConcat(data, offset, BinPrefix(|s|), s);
    BinReads(data, offset, |s|);
    SubstrReads(data, offset + |BinPrefix(|s|)|, s);
  }

  lemma KeyReads(data: seq<byte>, offset: nat, key: seq<byte>, thrifty: bool)
    requires |key| < TWO_32 && At(data, offset, KeyEncoding(key, thrifty))
    ensures var r := UnpackAt(data, offset);
            r.Got? && KeyOf(r.value) == key && r.offset == offset + |KeyEncoding(key, thrifty)|
  {
    hide ReadHead, PackInt, At;
    if thrifty && Castable(key) {
      var v := Abbreviation(key);
      hide UnpackAt;
      if v.Int? {
        IntegerReads(data, offset, v.n);
      } else {
        assert Pack(v) == ArrPrefix(0);
        ArrayReads(data, offset, 0, [], offset + |ArrPrefix(0)|);
      }
    } else {
      StringReads(data, offset, key);
    }
  }

  lemma IntegerReads(data: seq<byte>, offset: nat, n: int)
    requires Int64(n) && At(data, offset, PackInt(n))
    ensures UnpackAt(data, offset) == Got(Int(n), offset + |PackInt(n)|)
  {
    hide ReadHead, PackInt, At;
    IntReads(data, offset, n);
  }

  lemma ArrayReads(data: seq<byte>, offset: nat, count: nat, items: seq<Value>, end: nat)
    requires count < TWO_32 && At(data, offset, ArrPrefix(count))
    requires UnpackItems(data, offset + |ArrPrefix(count)|, count) == GotItems(items, end)
    ensures UnpackAt(data, offset) == Got(Arr(items), end)
  {
    hide ReadHead, ArrPrefix, At, UnpackItems;
    ArrReads(data, offset, count);
  }

  lemma MapEntriesRead(data: seq<byte>, offset: nat, count: nat, entries: seq<Entry>, end: nat)
    requires count < TWO_32 && At(data, offset, MapPrefix(count))
    requires UnpackEntries(data, offset + |MapPrefix(count)|, count, []) == GotEntries(entries, end)
    ensures UnpackAt(data, offset) == Got(Map(entries), end)
  {
    hide ReadHead, MapPrefix, At, UnpackEntries;
    MapReads(data, offset, count);
  }

  lemma {:induction false} EncodingReads(data: seq<byte>, offset: nat, v: Value, thrifty: bool)
    requires InDomain(v) && At(data, offset, Encoding(v, thrifty))
    ensures UnpackAt(data, offset) == Got(AsRead(v), offset + |Encoding(v, thrifty)|)
    decreases v, 0
  {
    hide UnpackAt, StrPrefix, BinPrefix, ArrPrefix, MapPrefix, PackInt, PackStr, At;
    match v
    case Nil => ScalarReads(data, offset, v);
    case Bool(_) => ScalarReads(data, offset, v);
    case Int(n) => IntegerReads(data, offset, n);
    case Str(s) => StringReads(data, offset, s);
    case Bin(s) =>
      if thrifty {
        StringReads(data, offset, s);
      } else {
        BinaryReads(data, offset, s);
      }
    case Arr(items) =>
      var start, all := ArrPrefix(|items|), ItemsEncoding(items, thrifty);
      assert Encoding(v, thrifty) == start + all;
      AtConcat(data, offset, start, all);
      ItemsRead(data, offset + |start|, items, thrifty);
      ArrayReads(data, offset, |items|, ItemsAsRead(items), offset + |start + all|);
    case Map(entries) =>
      var start, all := MapPrefix(|entries|), EntriesEncoding(entries, thrifty);
      assert Encoding(v, thrifty) == start + all;
      AtConcat(data, offset, start, all);
      EntriesRead(data, offset + |start|, entries, [], thrifty);
      assert [] + EntriesAsRead(entries) == EntriesAsRead(entries);
      MapEntriesRead(data, offset, |entries|, EntriesAsRead(entries), offset + |start + all|);
  }

  lemma ScalarReads(data: seq<byte>, offset: nat, v: Value)
    requires (v.Nil? || v.Bool?) && At(data, offset, Pack(v))
    ensures UnpackAt(data, offset) == Got(v, offset + 1)
  {
    AtIndex(data, offset, Pack(v), 0);
  }

  lemma {:induction false} ItemsRead(data: seq<byte>, offset: nat, items: seq<Value>, thrifty: bool)
    requires ItemsInDomain(items) && At(data, offset, ItemsEncoding(items, thrifty))
    ensures UnpackItems(data, offset, |items|) ==
            GotItems(ItemsAsRead(items), offset + |ItemsEncoding(items, thrifty)|)
    decreases items, 0
  {
    hide At, UnpackAt, Encoding, AsRead, InDomain;
    if items != [] {
      var first, rest := Encoding(items[0], thrifty), ItemsEncoding(items[1..], thrifty);
      assert ItemsEncoding(items, thrifty) == first + rest;
      AtConcat(data, offset, first, rest);
      EncodingReads(data, offset, items[0], thrifty);
      ItemsRead(data, offset + |first|, items[1..], thrifty);
    }
  }

  lemma {:induction false} NewKeyIsAppended(entries: seq<Entry>, key: seq<byte>, value: Value)
    requires forall i :: 0 <= i < |entries| ==> entries[i].key != key
    ensures SetEntry(entries, key, value) == entries + [Entry(key, value)]
  {
    if entries != [] {
      NewKeyIsAppended(entries[1..], key, value);
    }
  }

  /** The entries read so far, acc, and those still to come have different keys throughout. */
  ghost predicate Apart(acc: seq<Entry>, entries: seq<Entry>) {
    DistinctKeys(entries) && forall i, j :: 0 <= i < |acc| && 0 <= j < |entries| ==> acc[i].key != entries[j].key
  }

  lemma ApartStep(acc: seq<Entry>, entries: seq<Entry>, value: Value)
    requires entries != [] && Apart(acc, entries)
    ensures SetEntry(acc, entries[0].key, value) == acc + [Entry(entries[0].key, value)]
    ensures Apart(acc + [Entry(entries[0].key, value)], entries[1..])
  {
    NewKeyIsAppended(acc, entries[0].key, value);
  }

  lemma {:induction false} EntriesRead(
    data: seq<byte>, offset: nat, entries: seq<Entry>, acc: seq<Entry>, thrifty: bool)
    requires EntriesInDomain(entries) && Apart(acc, entries)
    requires At(data, offset, EntriesEncoding(entries, thrifty))
    ensures UnpackEntries(data, offset, |entries|, acc) ==
            GotEntries(acc + EntriesAsRead(entries), offset + |EntriesEncoding(entries, thrifty)|)
    decreases entries, 0
  {
    hide KeyEncoding, KeyOf, At, UnpackAt, SetEntry, Encoding, AsRead, InDomain, Apart;
    if entries == [] {
      assert acc + [] == acc;
    } else {
      hide UnpackEntries;
      var key, value := entries[0].key, entries[0].value;
      var k, b, rest := KeyEncoding(key, thrifty), Encoding(value, thrifty), EntriesEncoding(entries[1..], thrifty);
      assert EntriesEncoding(entries, thrifty) == k + b + rest;
      AtConcat(data, offset, k + b, rest);
      AtConcat(data, offset, k, b);
      KeyReads(data, offset, key, thrifty);
      EncodingReads(data, offset + |k|, value, thrifty);
      EntryStep(data, offset, |entries|, acc, UnpackAt(data, offset), UnpackAt(data, offset + |k|));
      var next := [Entry(key, AsRead(value))];
      ApartStep(acc, entries, AsRead(value));
      EntriesRead(data, offset + |k| + |b|, entries[1..], acc + next, thrifty);
      assert EntriesAsRead(entries) == next + EntriesAsRead(entries[1..]);
      assert (acc + next) + EntriesAsRead(entries[1..]) == acc + EntriesAsRead(entries);
    }
  }

  // ----- the promises -----

  /** Reading back what pack wrote, at any place in any data: the value, and exactly its bytes. */
  lemma RoundTrip(v: Value, before: seq<byte>, after: seq<byte>)
    requires InDomain(v)
    ensures UnpackAt(before + Pack(v) + after, |before|) == Got(AsRead(v), |before| + |Pack(v)|)
  {
    var data := before + Pack(v) + after;
    assert data[|before|..|before| + |Pack(v)|] == Pack(v);
    PackIsPlainEncoding(v);
    EncodingReads(data, |before|, v, false);
  }

  /** Two packed values at the start of the same bytes are the same value, up to binaries. */
  lemma PackIsPrefixFree(v: Value, w: Value, after: seq<byte>, after': seq<byte>)
    requires InDomain(v) && InDomain(w) && Pack(v) + after == Pack(w) + after'
    ensures AsRead(v) == AsRead(w) && after == after'
  {
    hide Pack, UnpackAt, AsRead, InDomain;
    RoundTrip(v, [], after);
    RoundTrip(w, [], after');
    assert [] + Pack(v) + after == Pack(v) + after;
    assert [] + Pack(w) + after' == Pack(w) + after';
    assert after == (Pack(v) + after)[|Pack(v)|..];
    assert after' == (Pack(w) + after')[|Pack(w)|..];
  }
}
