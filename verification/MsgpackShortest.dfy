/**
 When pack writes the shortest bytes that read back as its argument: exactly when no map key could be written as
 an integer or an empty array, and no binary of at most 31 bytes occurs.
 */
module MsgpackShortest {
  import opened Bytes
  import opened Msgpack
  import opened MsgpackRoundTrip

  /** No map key that a cast could have produced, and no binary that a string would beat. */
  ghost predicate Tight(v: Value)
    decreases v, 0
  {
    match v
    case Bin(s) => |s| > 31
    case Arr(items) => TightItems(items)
    case Map(entries) => TightEntries(entries)
    case _ => true
  }

  ghost predicate TightItems(items: seq<Value>)
    decreases items, 0
  {
    items != [] ==> Tight(items[0]) && TightItems(items[1..])
  }

  ghost predicate TightEntries(entries: seq<Entry>)
    decreases entries, 0
  {
    entries != [] ==> !Castable(entries[0].key) && Tight(entries[0].value) && TightEntries(entries[1..])
  }

  /** No bytes that read back as v does, to their last byte, are fewer than pack's. */
  ghost predicate Shortest(v: Value) {
    forall data: seq<byte> :: UnpackAt(data, 0) == Got(AsRead(v), |data|) ==> |Pack(v)| <= |data|
  }

  // ----- what reading a value costs -----

  /** A head costs at least the prefix pack would write for it. */
  lemma HeadCost(data: seq<byte>, offset: nat)
    requires offset < |data| && ReadHead(data, offset).HeadRead?
    ensures var r := ReadHead(data, offset);
            match r.head
            case IntHead(n) => |PackInt(n)| <= r.offset - offset
            case StrHead(len) => |StrPrefix(len)| <= r.offset - offset
            case ArrHead(count) => |ArrPrefix(count)| <= r.offset - offset
            case MapHead(count) => |MapPrefix(count)| <= r.offset - offset
            case _ => true
  {
    hide Field2, Field4, Field8;
  }

  lemma PrefixesGrow(m: nat, n: nat)
    requires m <= n
    ensures |MapPrefix(m)| <= |MapPrefix(n)|
  {
  }

  /** Whatever is not a string casts to a castable key, or to the empty one. */
  lemma CastIsCastable(k: Value)
    requires k.Int? ==> Int64(k.n)
    ensures (k.Bool? && k.b) || k.Int? || k.Arr? || k.Map? ==> Castable(KeyOf(k))
  {
    assert Decimal(1) == [0x31];
    if k.Int? {
      assert Decimal(k.n) == KeyOf(k);
    }
  }

  lemma KeyCost(k: Value, cost: nat)
    requires !Castable(KeyOf(k)) && cost > 0 && !k.Bin? && (k.Int? ==> Int64(k.n))
    requires k.Str? ==> |Pack(k)| <= cost
    ensures |PackStr(KeyOf(k))| <= cost
  {
    CastIsCastable(k);
  }

  /** What an entry, and what entries, cost at least as far as they are tight. */
  ghost function DueFor(e: Entry): nat {
    if !Castable(e.key) && Tight(e.value) then |PackStr(e.key)| + |Pack(e.value)| else 0
  }

  ghost function Due(entries: seq<Entry>): nat {
    if entries == [] then 0 else DueFor(entries[0]) + Due(entries[1..])
  }

  lemma {:induction false} DueIsPacked(entries: seq<Entry>)
    requires TightEntries(entries)
    ensures Due(entries) == |PackEntries(entries)|
  {
    hide Castable, Tight, Pack, PackStr;
    if entries != [] {
      DueIsPacked(entries[1..]);
    }
  }

  /** Writing one entry adds no more than that entry, whether or not it replaces another. */
  lemma {:induction false} DueOfSetEntry(entries: seq<Entry>, key: seq<byte>, value: Value)
    ensures Due(SetEntry(entries, key, value)) <= Due(entries) + DueFor(Entry(key, value))
    ensures |SetEntry(entries, key, value)| <= |entries| + 1
  {
    hide DueFor;
    if entries == [] {
      assert SetEntry(entries, key, value)[1..] == [];
    } else if entries[0].key == key {
      assert SetEntry(entries, key, value)[1..] == entries[1..];
    } else {
      DueOfSetEntry(entries[1..], key, value);
      assert SetEntry(entries, key, value)[1..] == SetEntry(entries[1..], key, value);
    }
  }

  lemma {:induction false} ValueCost(data: seq<byte>, offset: nat)
    requires var r := UnpackAt(data, offset); r.Got? && r.offset <= |data| && Tight(r.value)
    ensures var r := UnpackAt(data, offset); |Pack(r.value)| <= r.offset - offset
    decreases Left(data, offset), 0, 0
  {
    HeadCost(data, offset);
    hide ReadHead, PackInt, StrPrefix, ArrPrefix, MapPrefix;
    var h := ReadHead(data, offset);
    match h.head
    case ArrHead(count) => ItemsCost(data, h.offset, count);
    case MapHead(count) =>
      EntriesCost(data, h.offset, count, []);
      var entries := UnpackEntries(data, h.offset, count, []).entries;
      PrefixesGrow(|entries|, count);
      DueIsPacked(entries);
    case _ =>
  }

  lemma {:induction false} ItemsCost(data: seq<byte>, offset: nat, count: nat)
    requires var r := UnpackItems(data, offset, count); r.GotItems? && r.offset <= |data| && TightItems(r.items)
    ensures var r := UnpackItems(data, offset, count); |PackItems(r.items)| <= r.offset - offset
    decreases Left(data, offset), 1, count
  {
    if count > 0 {
      var first := UnpackAt(data, offset);
      var rest := UnpackItems(data, first.offset, count - 1);
      assert UnpackItems(data, offset, count).items[1..] == rest.items;
      ValueCost(data, offset);
      ItemsCost(data, first.offset, count - 1);
    }
  }

  /** One key and its value cost at least what is due for the entry they make. */
  lemma {:induction false} EntryCost(data: seq<byte>, offset: nat)
    requires UnpackAt(data, offset).Got?
    requires var v := UnpackAt(data, UnpackAt(data, offset).offset); v.Got? && v.offset <= |data|
    ensures var k := UnpackAt(data, offset); var v := UnpackAt(data, k.offset);
            DueFor(Entry(KeyOf(k.value), v.value)) <= v.offset - offset
    decreases Left(data, offset), 1, 0
  {
    var k := UnpackAt(data, offset);
    var v := UnpackAt(data, k.offset);
    hide UnpackAt, Pack;
    if !Castable(KeyOf(k.value)) && Tight(v.value) {
      if k.value.Str? {
        ValueCost(data, offset);
      }
      KeyCost(k.value, k.offset - offset);
      ValueCost(data, k.offset);
    }
  }

  lemma {:induction false} EntriesCost(data: seq<byte>, offset: nat, count: nat, acc: seq<Entry>)
    requires var r := UnpackEntries(data, offset, count, acc); r.GotEntries? && r.offset <= |data|
    ensures var r := UnpackEntries(data, offset, count, acc);
            Due(r.entries) <= Due(acc) + r.offset - offset && |r.entries| <= |acc| + count
    decreases Left(data, offset), 1, count
  {
    hide UnpackAt, DueFor, Due, KeyOf, SetEntry;
    if count > 0 {
      var k := UnpackAt(data, offset);
      var v := UnpackAt(data, k.offset);
      EntryStep(data, offset, count, acc, k, v);
      EntryCost(data, offset);
      DueOfSetEntry(acc, KeyOf(k.value), v.value);
      EntriesCost(data, v.offset, count - 1, SetEntry(acc, KeyOf(k.value), v.value));
    }
  }

  /** A tight value reads back as one that pack writes in as many bytes. */
  lemma {:induction false} TightAsRead(v: Value)
    requires Tight(v)
    ensures Tight(AsRead(v)) && |Pack(AsRead(v))| == |Pack(v)|
    decreases v, 0
  {
    match v
    case Arr(items) => TightItemsAsRead(items);
    case Map(entries) => TightEntriesAsRead(entries);
    case _ =>
  }

  lemma {:induction false} TightItemsAsRead(items: seq<Value>)
    requires TightItems(items)
    ensures TightItems(ItemsAsRead(items)) && |ItemsAsRead(items)| == |items|
    ensures |PackItems(ItemsAsRead(items))| == |PackItems(items)|
    decreases items, 0
  {
    if items != [] {
      TightAsRead(items[0]);
      TightItemsAsRead(items[1..]);
      hide Tight, Pack, AsRead;
      assert ItemsAsRead(items)[1..] == ItemsAsRead(items[1..]);
    }
  }

  lemma {:induction false} TightEntriesAsRead(entries: seq<Entry>)
    requires TightEntries(entries)
    ensures TightEntries(EntriesAsRead(entries)) && |EntriesAsRead(entries)| == |entries|
    ensures |PackEntries(EntriesAsRead(entries))| == |PackEntries(entries)|
    decreases entries, 0
  {
    if entries != [] {
      TightAsRead(entries[0].value);
      TightEntriesAsRead(entries[1..]);
      hide Tight, Pack, AsRead, Castable, PackStr;
      assert EntriesAsRead(entries)[1..] == EntriesAsRead(entries[1..]);
    }
  }

  // ----- what a thrifty encoder saves -----

  function Pow10(k: nat): (p: nat)
    ensures p > 0
  {
    if k == 0 then 1 else 10 * Pow10(k - 1)
  }

  lemma {:induction false} DigitCount(n: nat, k: nat)
    requires n >= Pow10(k)
    ensures |Digits(n)| > k
  {
    if k > 0 {
      DigitCount(n / 10, k - 1);
    }
  }

  /** An integer is written in fewer bytes than the string of its digits. */
  lemma IntBeatsDigits(n: int)
    requires Int64(n)
    ensures |PackInt(n)| <= |Decimal(n)|
  {
    var m := if n < 0 then -n else n;
    assert Pow10(1) == 10 && Pow10(2) == 100;
    assert Pow10(4) == 10000 by { assert Pow10(3) == 1000; }
    assert Pow10(9) == 1000000000 by {
      assert Pow10(5) == 100000;
      assert Pow10(6) == 1000000;
      assert Pow10(7) == 10000000;
      assert Pow10(8) == 100000000;
    }
    hide Digits, BE2, BE4, BE8;
    if m >= 1000000000 {
      DigitCount(m, 9);
    } else if m >= 10000 {
      DigitCount(m, 4);
    } else if m >= 100 {
      DigitCount(m, 2);
    } else if m >= 10 {
      DigitCount(m, 1);
    }
  }

  lemma AbbreviationIsShorter(key: seq<byte>)
    requires Castable(key)
    ensures |KeyEncoding(key, true)| < |PackStr(key)|
  {
    var v := Abbreviation(key);
    if v.Int? {
      IntBeatsDigits(v.n);
    } else {
      assert |Pack(v)| == 1;
    }
    hide Castable, PackInt, Decimal;
  }

  lemma {:induction false} ThriftSaves(v: Value)
    ensures |Encoding(v, true)| <= |Pack(v)|
    ensures !Tight(v) ==> |Encoding(v, true)| < |Pack(v)|
    decreases v, 0
  {
    match v
    case Arr(items) => ThriftSavesItems(items);
    case Map(entries) => ThriftSavesEntries(entries);
    case _ =>
  }

  lemma {:induction false} ThriftSavesItems(items: seq<Value>)
    ensures |ItemsEncoding(items, true)| <= |PackItems(items)|
    ensures !TightItems(items) ==> |ItemsEncoding(items, true)| < |PackItems(items)|
    decreases items, 0
  {
    if items != [] {
      ThriftSaves(items[0]);
      ThriftSavesItems(items[1..]);
      hide Encoding, Pack, Tight;
    }
  }

  lemma {:induction false} ThriftSavesEntries(entries: seq<Entry>)
    ensures |EntriesEncoding(entries, true)| <= |PackEntries(entries)|
    ensures !TightEntries(entries) ==> |EntriesEncoding(entries, true)| < |PackEntries(entries)|
    decreases entries, 0
  {
    if entries != [] {
      var key := entries[0].key;
      ThriftSaves(entries[0].value);
      ThriftSavesEntries(entries[1..]);
      if Castable(key) {
        AbbreviationIsShorter(key);
      }
      hide Encoding, Pack, Tight, Castable, PackStr, Abbreviation;
    }
  }

  // ----- the exact condition -----

  lemma TightIsShortest(v: Value, data: seq<byte>)
    requires Tight(v) && UnpackAt(data, 0) == Got(AsRead(v), |data|)
    ensures |Pack(v)| <= |data|
  {
    TightAsRead(v);
    ValueCost(data, 0);
  }

  /** pack is as short as any encoding of its argument exactly when the argument is tight. */
  lemma ShortestExactlyWhenTight(v: Value)
    requires InDomain(v)
    ensures Shortest(v) <==> Tight(v)
  {
    hide UnpackAt, Pack, Tight, InDomain, AsRead, Encoding;
    if Tight(v) {
      forall data: seq<byte> | UnpackAt(data, 0) == Got(AsRead(v), |data|) ensures |Pack(v)| <= |data| {
        TightIsShortest(v, data);
      }
    } else {
      var data := Encoding(v, true);
      assert data[0..|data|] == data;
      EncodingReads(data, 0, v, true);
      ThriftSaves(v);
    }
  }

  /** The condition never fails for values without maps and binaries. */
  ghost predicate Plain(v: Value)
    decreases v, 0
  {
    match v
    case Bin(_) => false
    case Map(_) => false
    case Arr(items) => PlainItems(items)
    case _ => true
  }

  ghost predicate PlainItems(items: seq<Value>)
    decreases items, 0
  {
    items != [] ==> Plain(items[0]) && PlainItems(items[1..])
  }

  lemma {:induction false} PlainIsTight(v: Value)
    requires Plain(v)
    ensures Tight(v) && AsRead(v) == v
    decreases v, 0
  {
    if v.Arr? {
      PlainItemsAreTight(v.items);
    }
  }

  lemma {:induction false} PlainItemsAreTight(items: seq<Value>)
    requires PlainItems(items)
    ensures TightItems(items) && ItemsAsRead(items) == items
    decreases items, 0
  {
    if items != [] {
      PlainIsTight(items[0]);
      PlainItemsAreTight(items[1..]);
    }
  }

  lemma PlainIsShortest(v: Value, data: seq<byte>)
    requires Plain(v) && UnpackAt(data, 0) == Got(v, |data|)
    ensures |Pack(v)| <= |data|
  {
    PlainIsTight(v);
    TightIsShortest(v, data);
  }

  /** Not every map: three bytes read back as the map of "5" to nil, which pack writes in four. */
  lemma DecimalKeysAreNotShortest()
    ensures var v := Map([Entry([0x35], Nil)]); var data: seq<byte> := [0x81, 0x05, 0xc0];
            InDomain(v) && UnpackAt(data, 0) == Got(v, 3) && |Pack(v)| == 4
  {
    var data: seq<byte> := [0x81, 0x05, 0xc0];
    assert UnpackAt(data, 1) == Got(Int(5), 2);
    assert UnpackAt(data, 2) == Got(Nil, 3);
    assert KeyOf(Int(5)) == [0x35];
    EntryStep(data, 1, 1, [], Got(Int(5), 2), Got(Nil, 3));
    var entries := [Entry([0x35], Nil)];
    assert entries[0].key != Decimal(0);
    assert entries[1..] == [];
    assert PackStr([0x35]) == [0xa1, 0x35];
    assert |PackEntries(entries)| == 3;
  }
}
