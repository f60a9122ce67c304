/**
 The MessagePack codec of tests/fixtures/lib/msgpack.php: a recursive printer and a cursor-driven parser, for
 nil, booleans, 64-bit integers, byte strings, binaries, arrays and maps with string keys. Bit masks on a
 single byte are written as the division and remainder they are.
 */
module Msgpack {
  import opened Basics
  import opened Bytes

  datatype Entry = Entry(key: seq<byte>, value: Value)

  datatype Value =
    | Nil
    | Bool(b: bool)
    | Int(n: int)
    | Str(s: seq<byte>)
    | Bin(s: seq<byte>)       // EregionBin
    | Arr(items: seq<Value>)
    | Map(entries: seq<Entry>)

  predicate Int64(n: int) { -TWO_63 <= n < TWO_63 }

  // ----- pack (8-135) -----

  function PackInt(n: int): (b: seq<byte>)
    ensures |b| > 0
  {
    if n >= 0 then
      if n <= 0x7f then [Low(n)]
      else if n <= 0xff then [0xcc, Low(n)]
      else if n <= 0xffff then [0xcd] + BE2(n)
      else if n <= 0xffffffff then [0xce] + BE4(n)
      else [0xcf] + BE8(n)
    else if n >= -32 then [Low(n)]
    else if n >= -128 then [0xd0, Low(n)]
    else if n >= -32768 then [0xd1] + BE2(n)
    else if n >= -2147483648 then [0xd2] + BE4(n)
    else [0xd3] + BE8(n)
  }

  function StrPrefix(len: nat): (b: seq<byte>)
    ensures |b| > 0
  {
    if len <= 31 then [Low(0xa0 + len)]
    else if len <= 0xff then [0xd9, Low(len)]
    else if len <= 0xffff then [0xda] + BE2(len)
    else [0xdb] + BE4(len)
  }

  function BinPrefix(len: nat): seq<byte> {
    if len <= 0xff then [0xc4, Low(len)]
    else if len <= 0xffff then [0xc5] + BE2(len)
    else [0xc6] + BE4(len)
  }

  function ArrPrefix(count: nat): seq<byte> {
    if count <= 15 then [Low(0x90 + count)]
    else if count <= 0xffff then [0xdc] + BE2(count)
    else [0xdd] + BE4(count)
  }

  function MapPrefix(count: nat): seq<byte> {
    if count <= 15 then [Low(0x80 + count)]
    else if count <= 0xffff then [0xde] + BE2(count)
    else [0xdf] + BE4(count)
  }

  function PackStr(s: seq<byte>): seq<byte> { StrPrefix(|s|) + s }

  function Pack(v: Value): seq<byte>
    decreases v, 0
  {
    match v
    case Nil => [0xc0]
    case Bool(b) => if b then [0xc3] else [0xc2]
    case Int(n) => PackInt(n)
    case Str(s) => PackStr(s)
    case Bin(s) => BinPrefix(|s|) + s
    case Arr(items) => ArrPrefix(|items|) + PackItems(items)
    case Map(entries) => MapPrefix(|entries|) + PackEntries(entries)
  }

  function PackItems(items: seq<Value>): seq<byte>
    decreases items, 0
  {
    if items == [] then [] else Pack(items[0]) + PackItems(items[1..])
  }

  function PackEntries(entries: seq<Entry>): seq<byte>
    decreases entries, 0
  {
    if entries == [] then []
    else PackStr(entries[0].key) + Pack(entries[0].value) + PackEntries(entries[1..])
  }

  // ----- unpack (137-275) -----

  /** What a type byte and its length or number field announce. */
  datatype Head =
    | NilHead
    | BoolHead(b: bool)
    | IntHead(n: int)
    | StrHead(len: nat)      // strings and binaries are read alike (272-275)
    | ArrHead(count: nat)
    | MapHead(count: nat)

  datatype HeadRead = NoHead | HeadRead(head: Head, offset: nat)

  /** readU8 past the end yields 0: ord of the empty string. */
  function U8(data: seq<byte>, offset: nat): (n: nat)
    ensures n < 256
  {
    if offset < |data| then data[offset] else 0
  }

  /** The wider readers fail past the end: unpack gets too few bytes. */
  function U16(data: seq<byte>, offset: nat): Option<nat> {
    if offset + 2 <= |data| then Some(Field2(data, offset)) else None
  }

  function U32(data: seq<byte>, offset: nat): Option<nat> {
    if offset + 4 <= |data| then Some(Field4(data, offset)) else None
  }

  /** unpack('J') yields a signed 64-bit integer. */
  function U64(data: seq<byte>, offset: nat): Option<int> {
    if offset + 8 <= |data| then Some(Signed(Field8(data, offset), TWO_63)) else None
  }

  function Signed(u: nat, half: nat): int { if u >= half then u - 2 * half else u }

  predicate HeadOk(h: Head) {
    match h
    case IntHead(n) => Int64(n)
    case StrHead(len) => len < TWO_32
    case ArrHead(count) => count < TWO_32
    case MapHead(count) => count < TWO_32
    case _ => true
  }

  function IntField(field: Option<int>, offset: nat): HeadRead {
    if field.None? then NoHead else HeadRead(IntHead(field.value), offset)
  }

  function ReadHead(data: seq<byte>, offset: nat): (r: HeadRead)
    requires offset < |data|
    ensures r.HeadRead? ==> offset < r.offset && HeadOk(r.head)
  {
    var b: int := data[offset];
    var o := offset + 1;
    if b <= 0x7f then HeadRead(IntHead(b), o)
    else if b >= 0xe0 then HeadRead(IntHead(b - 256), o)
    else if b / 0x20 * 0x20 == 0xa0 then HeadRead(StrHead(b % 0x20), o)
    else if b / 0x10 * 0x10 == 0x90 then HeadRead(ArrHead(b % 0x10), o)
    else if b / 0x10 * 0x10 == 0x80 then HeadRead(MapHead(b % 0x10), o)
    else if b == 0xc0 then HeadRead(NilHead, o)
    else if b == 0xc2 then HeadRead(BoolHead(false), o)
    else if b == 0xc3 then HeadRead(BoolHead(true), o)
    else if b == 0xc4 || b == 0xd9 then HeadRead(StrHead(U8(data, o)), o + 1)
    else if b == 0xc5 || b == 0xda then
      (var n := U16(data, o); if n.None? then NoHead else HeadRead(StrHead(n.value), o + 2))
    else if b == 0xc6 || b == 0xdb then
      (var n := U32(data, o); if n.None? then NoHead else HeadRead(StrHead(n.value), o + 4))
    else if b == 0xcc then HeadRead(IntHead(U8(data, o)), o + 1)
    else if b == 0xcd then IntField(U16(data, o), o + 2)
    else if b == 0xce then IntField(U32(data, o), o + 4)
    else if b == 0xcf || b == 0xd3 then IntField(U64(data, o), o + 8)
    else if b == 0xd0 then (if o < |data| then HeadRead(IntHead(Signed(data[o], 0x80)), o + 1) else NoHead)
    else if b == 0xd1 then
      (var n := U16(data, o); if n.None? then NoHead else HeadRead(IntHead(Signed(n.value, 0x8000)), o + 2))
    else if b == 0xd2 then
      (var n := U32(data, o); if n.None? then NoHead else HeadRead(IntHead(Signed(n.value, 0x80000000)), o + 4))
    else if b == 0xdc then
      (var n := U16(data, o); if n.None? then NoHead else HeadRead(ArrHead(n.value), o + 2))
    else if b == 0xdd then
      (var n := U32(data, o); if n.None? then NoHead else HeadRead(ArrHead(n.value), o + 4))
    else if b == 0xde then
      (var n := U16(data, o); if n.None? then NoHead else HeadRead(MapHead(n.value), o + 2))
    else if b == 0xdf then
      (var n := U32(data, o); if n.None? then NoHead else HeadRead(MapHead(n.value), o + 4))
    else NoHead
  }

  /** substr, which stops at the end of the data. */
  function Substr(data: seq<byte>, offset: nat, len: nat): seq<byte> {
    data[Min(offset, |data|)..Min(offset + len, |data|)]
  }

  datatype Parsed = Fail | Got(value: Value, offset: nat)
  datatype ParsedItems = FailItems | GotItems(items: seq<Value>, offset: nat)
  datatype ParsedEntries = FailEntries | GotEntries(entries: seq<Entry>, offset: nat)

  function Left(data: seq<byte>, offset: nat): nat {
    if offset < |data| then |data| - offset else 0
  }

  function UnpackAt(data: seq<byte>, offset: nat): (r: Parsed)
    ensures r.Got? ==> offset < r.offset && !r.value.Bin? && (r.value.Int? ==> Int64(r.value.n))
    decreases Left(data, offset), 0, 0
  {
    if offset >= |data| then Fail
    else
      var h := ReadHead(data, offset);
      if h.NoHead? then Fail
      else
        match h.head
        case NilHead => Got(Nil, h.offset)
        case BoolHead(b) => Got(Bool(b), h.offset)
        case IntHead(n) => Got(Int(n), h.offset)
        case StrHead(len) => Got(Str(Substr(data, h.offset, len)), h.offset + len)
        case ArrHead(count) =>
          var items := UnpackItems(data, h.offset, count);
          if items.FailItems? then Fail else Got(Arr(items.items), items.offset)
        case MapHead(count) =>
          var entries := UnpackEntries(data, h.offset, count, []);
          if entries.FailEntries? then Fail else Got(Map(entries.entries), entries.offset)
  }

  function UnpackItems(data: seq<byte>, offset: nat, count: nat): (r: ParsedItems)
    ensures r.GotItems? ==> offset <= r.offset && |r.items| == count
    decreases Left(data, offset), 1, count
  {
    if count == 0 then GotItems([], offset)
    else
      var first := UnpackAt(data, offset);
      if first.Fail? then FailItems
      else
        var rest := UnpackItems(data, first.offset, count - 1);
        if rest.FailItems? then FailItems else GotItems([first.value] + rest.items, rest.offset)
  }

  const ARRAY: seq<byte> := [0x41, 0x72, 0x72, 0x61, 0x79]

  function Digits(n: nat): (d: seq<byte>)
    ensures |d| > 0
  {
    if n < 10 then [0x30 + n] else Digits(n / 10) + [0x30 + n % 10]
  }

  function Decimal(n: int): seq<byte> {
    if n < 0 then [0x2d] + Digits(-n) else Digits(n)
  }

  /** PHP's (string) cast, applied to whatever stands where a map key belongs (205). */
  function KeyOf(v: Value): seq<byte> {
    match v
    case Nil => []
    case Bool(b) => if b then [0x31] else []
    case Int(n) => Decimal(n)
    case Str(s) => s
    case Bin(s) => s          // never decoded
    case Arr(_) => ARRAY
    case Map(_) => ARRAY
  }

  /** $out[key] = value: an existing key keeps its place. */
  function SetEntry(entries: seq<Entry>, key: seq<byte>, value: Value): seq<Entry> {
    if entries == [] then [Entry(key, value)]
    else if entries[0].key == key then [Entry(key, value)] + entries[1..]
    else [entries[0]] + SetEntry(entries[1..], key, value)
  }

  function UnpackEntries(data: seq<byte>, offset: nat, count: nat, acc: seq<Entry>): (r: ParsedEntries)
    ensures r.GotEntries? ==> offset <= r.offset
    decreases Left(data, offset), 1, count
  {
    if count == 0 then GotEntries(acc, offset)
    else
      var key := UnpackAt(data, offset);
      if key.Fail? then FailEntries
      else
        var value := UnpackAt(data, key.offset);
        if value.Fail? then FailEntries
        else UnpackEntries(data, value.offset, count - 1, SetEntry(acc, KeyOf(key.value), value.value))
  }

  /** One turn of the loop of unpackArray. */
  lemma ItemStep(data: seq<byte>, offset: nat, count: nat, v: Parsed)
    requires count > 0 && UnpackAt(data, offset) == v
    ensures var rest := UnpackItems(data, if v.Got? then v.offset else offset, count - 1);
            UnpackItems(data, offset, count) ==
            if v.Fail? || rest.FailItems? then FailItems else GotItems([v.value] + rest.items, rest.offset)
  {
    hide UnpackAt;
  }

  /** One turn of the loop of unpackMap. */
  lemma EntryStep(data: seq<byte>, offset: nat, count: nat, acc: seq<Entry>, k: Parsed, v: Parsed)
    requires count > 0 && k.Got? && v.Got?
    requires UnpackAt(data, offset) == k && UnpackAt(data, k.offset) == v
    ensures UnpackEntries(data, offset, count, acc) ==
            UnpackEntries(data, v.offset, count - 1, SetEntry(acc, KeyOf(k.value), v.value))
  {
    hide UnpackAt, KeyOf, SetEntry;
  }
}
