/**
 The loops and the cursor of tests/fixtures/lib/msgpack.php, proved to compute the recursive printer and parser
 of Msgpack. None stands for a thrown exception.
 */
module MsgpackCursor {
  import opened Basics
  import opened Bytes
  import opened Msgpack

  // ----- packArray and packMap append in a loop (104-135) -----

  lemma ItemsFrom(items: seq<Value>, i: nat)
    requires i < |items|
    ensures PackItems(items[i..]) == Pack(items[i]) + PackItems(items[i + 1..])
  {
    assert items[i..][1..] == items[i + 1..];
    hide Pack;
  }

  lemma EntriesFrom(entries: seq<Entry>, i: nat)
    requires i < |entries|
    ensures PackEntries(entries[i..]) ==
            PackStr(entries[i].key) + (Pack(entries[i].value) + PackEntries(entries[i + 1..]))
  {
    assert entries[i..][1..] == entries[i + 1..];
    hide Pack, PackStr;
  }

  lemma NothingLeft()
    ensures PackItems([]) == [] && PackEntries([]) == []
  {
  }

  lemma Append(out: seq<byte>, a: seq<byte>, b: seq<byte>)
    ensures out + (a + b) == (out + a) + b
  {
  }

  method PackValue(v: Value) returns (out: seq<byte>)
    ensures out == Pack(v)
    decreases v, 1
  {
    match v {
      case Nil => out := [0xc0];
      case Bool(b) => out := if b then [0xc3] else [0xc2];
      case Int(n) => out := PackInt(n);
      case Str(s) => out := PackStr(s);
      case Bin(s) => out := BinPrefix(|s|) + s;
      case Arr(items) => out := PackArray(items);
      case Map(entries) => out := PackMap(entries);
    }
  }

  method PackArray(items: seq<Value>) returns (out: seq<byte>)
    ensures out == ArrPrefix(|items|) + PackItems(items)
    decreases items, 0
  {
    var n := |items|;
    out := ArrPrefix(n);
    hide Pack, ArrPrefix, PackItems;
    assert items[0..] == items;
    var i := 0;
    while i < n
      invariant 0 <= i <= n
      invariant out + PackItems(items[i..]) == ArrPrefix(n) + PackItems(items)
    {
      var b := PackValue(items[i]);
      ItemsFrom(items, i);
      Append(out, b, PackItems(items[i + 1..]));
      out := out + b;
      i := i + 1;
    }
    assert PackItems(items[n..]) == [] by { NothingLeft(); }
    assert out + [] == out;
  }

  method PackMap(entries: seq<Entry>) returns (out: seq<byte>)
    ensures out == MapPrefix(|entries|) + PackEntries(entries)
    decreases entries, 0
  {
    var n := |entries|;
    out := MapPrefix(n);
    hide Pack, PackStr, MapPrefix, PackEntries;
    assert entries[0..] == entries;
    var i := 0;
    while i < n
      invariant 0 <= i <= n
      invariant out + PackEntries(entries[i..]) == MapPrefix(n) + PackEntries(entries)
    {
      var k := PackStr(entries[i].key);
      var b := PackValue(entries[i].value);
      EntriesFrom(entries, i);
      Append(out, k, b + PackEntries(entries[i + 1..]));
      Append(out + k, b, PackEntries(entries[i + 1..]));
      out := out + k;
      out := out + b;
      i := i + 1;
    }
    assert PackEntries(entries[n..]) == [] by { NothingLeft(); }
    assert out + [] == out;
  }

  // ----- the parser advances an offset (137-275) -----

  class Cursor {
    const data: seq<byte>
    var offset: nat

    constructor (data: seq<byte>)
      ensures this.data == data && offset == 0
    {
      this.data := data;
      offset := 0;
    }

    method ReadU8() returns (n: nat)
      modifies this
      ensures n == U8(data, old(offset)) && offset == old(offset) + 1
    {
      n := if offset < |data| then data[offset] else 0;
      offset := offset + 1;
    }

    method ReadU16() returns (n: Option<nat>)
      modifies this
      ensures n == U16(data, old(offset)) && offset == old(offset) + 2
    {
      n := U16(data, offset);
      offset := offset + 2;
    }

    method ReadU32() returns (n: Option<nat>)
      modifies this
      ensures n == U32(data, old(offset)) && offset == old(offset) + 4
    {
      n := U32(data, offset);
      offset := offset + 4;
    }

    method ReadU64() returns (n: Option<int>)
      modifies this
      ensures n == U64(data, old(offset)) && offset == old(offset) + 8
    {
      n := U64(data, offset);
      offset := offset + 8;
    }

    method ReadStr(len: nat) returns (s: seq<byte>)
      modifies this
      ensures s == Substr(data, old(offset), len) && offset == old(offset) + len
    {
      s := Substr(data, offset, len);
      offset := offset + len;
    }

    method ReadValue() returns (r: Option<Value>)
      modifies this
      ensures UnpackAt(data, old(offset)) == if r.None? then Fail else Got(r.value, offset)
      decreases Left(data, offset), 0, 0
    {
      if offset >= |data| {
        return None;
      }
      var b: int := data[offset];
      offset := offset + 1;
      if b <= 0x7f {
        return Some(Int(b));
      }
      if b >= 0xe0 {
        return Some(Int(b - 256));
      }
      if b / 0x20 * 0x20 == 0xa0 {
        var s := ReadStr(b % 0x20);
        return Some(Str(s));
      }
      if b / 0x10 * 0x10 == 0x90 {
        r := ReadArray(b % 0x10);
        return;
      }
      if b / 0x10 * 0x10 == 0x80 {
        r := ReadMap(b % 0x10);
        return;
      }
      r := ReadMarked(b);
    }

    /** The match on the type byte b, which the cursor has just passed. */
    method ReadMarked(b: int) returns (r: Option<Value>)
      requires 0 < offset <= |data| && b == data[offset - 1] as int && 0xc0 <= b < 0xe0
      modifies this
      ensures UnpackAt(data, old(offset) - 1) == if r.None? then Fail else Got(r.value, offset)
      decreases Left(data, offset), 2, 0
    {
      if b == 0xc0 {
        r := Some(Nil);
      } else if b == 0xc2 {
        r := Some(Bool(false));
      } else if b == 0xc3 {
        r := Some(Bool(true));
      } else if b == 0xc4 || b == 0xd9 {
        var len := ReadU8();
        var s := ReadStr(len);
        r := Some(Str(s));
      } else if b == 0xc5 || b == 0xda {
        var len := ReadU16();
        if len.None? {
          return None;
        }
        var s := ReadStr(len.value);
        r := Some(Str(s));
      } else if b == 0xc6 || b == 0xdb {
        var len := ReadU32();
        if len.None? {
          return None;
        }
        var s := ReadStr(len.value);
        r := Some(Str(s));
      } else if 0xcc <= b <= 0xd3 {
        r := ReadNumber(b);
      } else if b == 0xdc || b == 0xde {
        var n := ReadU16();
        if n.None? {
          return None;
        }
        if b == 0xdc {
          r := ReadArray(n.value);
        } else {
          r := ReadMap(n.value);
        }
      } else if b == 0xdd || b == 0xdf {
        var n := ReadU32();
        if n.None? {
          return None;
        }
        if b == 0xdd {
          r := ReadArray(n.value);
        } else {
          r := ReadMap(n.value);
        }
      } else {
        r := None;
      }
    }

    method ReadNumber(b: int) returns (r: Option<Value>)
      requires 0 < offset <= |data| && b == data[offset - 1] as int && 0xcc <= b <= 0xd3
      modifies this
      ensures UnpackAt(data, old(offset) - 1) == if r.None? then Fail else Got(r.value, offset)
    {
      if b == 0xcc {
        var n := ReadU8();
        r := Some(Int(n));
      } else if b == 0xcd || b == 0xd1 {
        var n := ReadU16();
        if n.None? {
          return None;
        }
        var u: int := n.value;
        r := Some(Int(if b == 0xd1 && u >= 0x8000 then u - 0x10000 else u));
      } else if b == 0xce || b == 0xd2 {
        var n := ReadU32();
        if n.None? {
          return None;
        }
        var u: int := n.value;
        r := Some(Int(if b == 0xd2 && u >= 0x80000000 then u - 0x100000000 else u));
      } else if b == 0xcf || b == 0xd3 {
        var n := ReadU64();
        if n.None? {
          return None;
        }
        r := Some(Int(n.value));
      } else {
        if offset >= |data| {
          return None;
        }
        var n: int := data[offset];
        offset := offset + 1;
        r := Some(Int(if n >= 0x80 then n - 0x100 else n));
      }
    }

    method ReadArray(n: nat) returns (r: Option<Value>)
      modifies this
      ensures var items := UnpackItems(data, old(offset), n);
              if r.None? then items.FailItems?
              else items.GotItems? && r.value == Arr(items.items) && offset == items.offset
      decreases Left(data, offset), 1, n
    {
      hide UnpackAt, UnpackItems, ItemsSoFar;
      var out: seq<Value> := [];
      var i := 0;
      ghost var all := UnpackItems(data, offset, n);
      NothingReadYet(all);
      while i < n
        invariant 0 <= i <= n && old(offset) <= offset
        invariant ItemsSoFar(all, out, UnpackItems(data, offset, n - i))
      {
        ItemReadNext(data, offset, n - i, all, out);
        var v := ReadValue();
        if v.None? {
          return None;
        }
        out := out + [v.value];
        i := i + 1;
      }
      AllItemsRead(data, offset, all, out);
      r := Some(Arr(out));
    }

    method ReadMap(n: nat) returns (r: Option<Value>)
      modifies this
      ensures var entries := UnpackEntries(data, old(offset), n, []);
              if r.None? then entries.FailEntries?
              else entries.GotEntries? && r.value == Map(entries.entries) && offset == entries.offset
      decreases Left(data, offset), 1, n
    {
      hide UnpackAt, SetEntry, KeyOf;
      var out: seq<Entry> := [];
      var i := 0;
      while i < n
        invariant 0 <= i <= n && old(offset) <= offset
        invariant UnpackEntries(data, old(offset), n, []) == UnpackEntries(data, offset, n - i, out)
      {
        ghost var before := offset;
        var k := ReadValue();
        if k.None? {
          return None;
        }
        ghost var between := offset;
        var v := ReadValue();
        if v.None? {
          return None;
        }
        EntryStep(data, before, n - i, out, Got(k.value, between), Got(v.value, offset));
        out := SetEntry(out, KeyOf(k.value), v.value);
        i := i + 1;
      }
      r := Some(Map(out));
    }
  }

  /** Parsing everything gives what was collected so far and what is still to come. */
  predicate ItemsSoFar(all: ParsedItems, out: seq<Value>, rest: ParsedItems) {
    if rest.FailItems? then all.FailItems? else all == GotItems(out + rest.items, rest.offset)
  }

  lemma NothingReadYet(all: ParsedItems)
    ensures ItemsSoFar(all, [], all)
  {
    assert all.GotItems? ==> [] + all.items == all.items;
  }

  lemma ItemReadNext(data: seq<byte>, offset: nat, count: nat, all: ParsedItems, out: seq<Value>)
    requires count > 0 && ItemsSoFar(all, out, UnpackItems(data, offset, count))
    ensures match UnpackAt(data, offset)
            case Fail => all.FailItems?
            case Got(v, o) => ItemsSoFar(all, out + [v], UnpackItems(data, o, count - 1))
  {
    var v := UnpackAt(data, offset);
    ItemStep(data, offset, count, v);
    hide UnpackAt, UnpackItems;
    if v.Got? {
      var rest := UnpackItems(data, v.offset, count - 1);
      assert rest.GotItems? ==> out + ([v.value] + rest.items) == (out + [v.value]) + rest.items;
    }
  }

  lemma AllItemsRead(data: seq<byte>, offset: nat, all: ParsedItems, out: seq<Value>)
    requires ItemsSoFar(all, out, UnpackItems(data, offset, 0))
    ensures all == GotItems(out, offset)
  {
    assert out + [] == out;
  }

  /** unpack (38-43), which does not look at what follows the value. */
  method Unpack(data: seq<byte>) returns (r: Option<Value>)
    ensures match UnpackAt(data, 0) case Fail => r == None case Got(v, _) => r == Some(v)
  {
    var cursor := new Cursor(data);
    r := cursor.ReadValue();
  }
}
