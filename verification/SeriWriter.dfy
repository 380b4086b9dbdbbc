// The wb_ functions for scalars, and the record of the tables written so far
// (src/lua-seri.c).
module SeriWriter {
  import opened SeriFormat
  import opened SeriPack
  import opened SeriBlocks
  import opened SeriPatch

  // A tag byte and then its payload: the two wb_push calls of most wb_ functions.
  method WriteTagged(wb: BlockChain, tag: byte, payload: bytes)
    requires wb.Valid()
    modifies wb.Repr
    ensures wb.Valid() && fresh(wb.Repr - old(wb.Repr)) && old(wb.Repr) <= wb.Repr
    ensures wb.data == old(wb.data) + ([tag] + payload)
  {
    hide BlockChain.Valid;
    wb.Push([tag]);
    wb.Push(payload);
  }

  // wb_integer
  method WriteInteger(wb: BlockChain, v: int)
    requires wb.Valid()
    modifies wb.Repr
    ensures wb.Valid() && fresh(wb.Repr - old(wb.Repr)) && old(wb.Repr) <= wb.Repr
    ensures wb.data == old(wb.data) + EncodeInt(v)
  {
    hide BlockChain.Valid, LE;
    if v == 0 {
      wb.Push([Combine(TYPE_NUMBER, NUMBER_ZERO)]);
    } else if !FitsInt32(v) {
      WriteTagged(wb, Combine(TYPE_NUMBER, NUMBER_QWORD), LE(8, Unsigned(v, 0x1_0000_0000_0000_0000)));
    } else if v < 0 {
      WriteTagged(wb, Combine(TYPE_NUMBER, NUMBER_DWORD), LE(4, Unsigned(v, 0x1_0000_0000)));
    } else if v < 0x100 {
      WriteTagged(wb, Combine(TYPE_NUMBER, NUMBER_BYTE), LE(1, v));
    } else if v < 0x1_0000 {
      WriteTagged(wb, Combine(TYPE_NUMBER, NUMBER_WORD), LE(2, v));
    } else {
      WriteTagged(wb, Combine(TYPE_NUMBER, NUMBER_DWORD), LE(4, v));
    }
  }

  // wb_string for 32 bytes and more
  method WriteLongString(wb: BlockChain, s: bytes)
    requires wb.Valid() && |s| >= MAX_COOKIE
    modifies wb.Repr
    ensures wb.Valid() && fresh(wb.Repr - old(wb.Repr)) && old(wb.Repr) <= wb.Repr
    ensures wb.data == old(wb.data) + EncodeString(s)
  {
    hide BlockChain.Valid, LE;
    ghost var before := wb.data;
    var width := if |s| < 0x1_0000 then 2 else 4;
    var x := if |s| < 0x1_0000 then LE(2, |s|) else LE(4, |s| % 0x1_0000_0000);
    WriteTagged(wb, Combine(TYPE_LONG_STRING, width), x);
    wb.Push(s);
    Reassociate(before, [Combine(TYPE_LONG_STRING, width)] + x, s);
  }

  // wb_string
  method WriteString(wb: BlockChain, s: bytes)
    requires wb.Valid()
    modifies wb.Repr
    ensures wb.Valid() && fresh(wb.Repr - old(wb.Repr)) && old(wb.Repr) <= wb.Repr
    ensures wb.data == old(wb.data) + EncodeString(s)
  {
    hide BlockChain.Valid, LE;
    if |s| >= MAX_COOKIE {
      WriteLongString(wb, s);
    } else if |s| > 0 {
      WriteTagged(wb, Combine(TYPE_SHORT_STRING, |s|), s);
    } else {
      wb.Push([Combine(TYPE_SHORT_STRING, 0)]);
      assert [Combine(TYPE_SHORT_STRING, 0)] + s == [Combine(TYPE_SHORT_STRING, 0)];
    }
  }

  lemma Reassociate(a: bytes, b: bytes, c: bytes)
    ensures a + b + c == a + (b + c)
  {
  }

  // wb_nil, wb_boolean, wb_integer, wb_real, wb_pointer or wb_string
  method WriteScalar(wb: BlockChain, v: Value)
    requires wb.Valid() && IsScalar(v)
    modifies wb.Repr
    ensures wb.Valid() && fresh(wb.Repr - old(wb.Repr)) && old(wb.Repr) <= wb.Repr
    ensures wb.data == old(wb.data) + EncodeScalar(v)
  {
    hide BlockChain.Valid, EncodeInt, EncodeString;
    match v {
      case Nil => wb.Push([Combine(TYPE_BOOLEAN, BOOLEAN_NIL)]);
      case Bool(b) => wb.Push([Combine(TYPE_BOOLEAN, if b then BOOLEAN_TRUE else BOOLEAN_FALSE)]);
      case Int(i) => WriteInteger(wb, i);
      case Real(w) =>
        WriteTagged(wb, Combine(TYPE_NUMBER, NUMBER_REAL), w);
      case Pointer(w) =>
        WriteTagged(wb, Combine(TYPE_USERDATA, USERDATA_POINTER), w);
      case CFunc(w) =>
        WriteTagged(wb, Combine(TYPE_USERDATA, USERDATA_CFUNCTION), w);
      case Str(s) => WriteString(wb, s);
    }
  }

  // The tag and size at the start of wb_table_array.
  method WriteHead(wb: BlockChain, n: size)
    requires wb.Valid()
    modifies wb.Repr
    ensures wb.Valid() && fresh(wb.Repr - old(wb.Repr)) && old(wb.Repr) <= wb.Repr
    ensures wb.data == old(wb.data) + EncodeHead(n, false)
  {
    hide BlockChain.Valid, EncodeInt;
    if n >= EXTEND_NUMBER {
      wb.Push([Combine(TYPE_TABLE, EXTEND_NUMBER)]);
      WriteInteger(wb, n);
      Reassociate(old(wb.data), [Combine(TYPE_TABLE, EXTEND_NUMBER)], EncodeInt(n));
    } else {
      wb.Push([Combine(TYPE_TABLE, n)]);
    }
  }

  // The tag and number a reference to a table seen before consists of.
  method WriteObject(wb: BlockChain, id: nat)
    requires wb.Valid()
    modifies wb.Repr
    ensures wb.Valid() && fresh(wb.Repr - old(wb.Repr)) && old(wb.Repr) <= wb.Repr
    ensures wb.data == old(wb.data) + EncodeToken(Object(id), {})
  {
    hide BlockChain.Valid, EncodeInt;
    wb.Push([Combine(TYPE_REF, EXTEND_NUMBER)]);
    WriteInteger(wb, id);
    Reassociate(old(wb.data), [Combine(TYPE_REF, EXTEND_NUMBER)], EncodeInt(id));
  }

  const MAX_REFERENCE := 32

  // The address of a table's tag, until the tag has been marked.
  datatype Slot = Marked | Tag(address: Address)

  datatype Reference = Reference(table: nat, slot: Slot)

  // The tag an address points to has not been changed yet.
  ghost predicate TagsInPlace(slots: seq<Slot>, data: bytes) {
    forall i | 0 <= i < |slots| && slots[i].Tag? ::
      && slots[i].address.offset < BLOCK_SIZE
      && slots[i].address.Position() < |data|
      && data[slots[i].address.Position()] % 8 == TYPE_TABLE
  }

  // What the two Lua tables hold for a list of tables.
  ghost predicate InMaps(ids: map<nat, nat>, addresses: map<nat, Address>, objects: seq<nat>, slots: seq<Slot>) {
    && |slots| == |objects|
    && (forall x :: x in ids <==> x in objects)
    && (forall i | 0 <= i < |objects| :: ids[objects[i]] == i + 1)
    && (forall i | 0 <= i < |slots| :: slots[i] == if i + 1 in addresses then Tag(addresses[i + 1]) else Marked)
    && (forall id | id in addresses :: 0 < id <= |slots|)
  }

  lemma InMapsAdd(ids: map<nat, nat>, addresses: map<nat, Address>, objects: seq<nat>, slots: seq<Slot>, obj: nat,
                  slot: Slot)
    requires InMaps(ids, addresses, objects, slots) && obj !in objects
    ensures var id := |objects| + 1;
      InMaps(ids[obj := id], if slot.Tag? then addresses[id := slot.address] else addresses, objects + [obj], slots + [slot])
  {
  }

  lemma InMapsMark(ids: map<nat, nat>, addresses: map<nat, Address>, objects: seq<nat>, slots: seq<Slot>, id: nat)
    requires InMaps(ids, addresses, objects, slots) && 0 < id <= |slots|
    ensures InMaps(ids, addresses - {id}, objects, slots[id - 1 := Marked])
  {
  }

  lemma InMapsLookup(ids: map<nat, nat>, addresses: map<nat, Address>, objects: seq<nat>, slots: seq<Slot>, obj: nat)
    requires InMaps(ids, addresses, objects, slots) && Distinct(objects)
    ensures obj in ids <==> obj in objects
    ensures obj in objects ==> ids[obj] == IndexOf(objects, obj) + 1
  {
    if obj in objects { var i := IndexOf(objects, obj); }
  }

  lemma SameIndex(objects: seq<nat>, i: nat)
    requires Distinct(objects) && i < |objects|
    ensures IndexOf(objects, objects[i]) == i
  {
  }

  // The tables seen so far: an array for the first 32, after that two Lua
  // tables, pointer -> id and id -> address of an unmarked tag.
  class References {
    var objectid: nat
    const r: array<Reference>
    var ids: map<nat, nat>
    var addresses: map<nat, Address>
    ghost var objects: seq<nat>
    ghost var slots: seq<Slot>

    ghost predicate InArray()
      reads this, r
    {
      && |objects| == |slots| <= r.Length == MAX_REFERENCE
      && forall i | 0 <= i < |objects| :: r[i] == Reference(objects[i], slots[i])
    }

    ghost predicate Valid()
      reads this, r
    {
      && r.Length == MAX_REFERENCE
      && objectid == |objects| == |slots|
      && Distinct(objects)
      && if objectid <= MAX_REFERENCE then InArray() else InMaps(ids, addresses, objects, slots)
    }

    constructor ()
      ensures Valid() && fresh(this) && fresh(r) && objects == [] && slots == []
    {
      r := new Reference[MAX_REFERENCE](_ => Reference(0, Marked));
      objectid, ids, addresses, objects, slots := 0, map[], map[], [], [];
    }

    // mark_table, given the address the table's tag is about to get
    method Record(obj: nat, a: Address)
      requires Valid() && obj !in objects
      modifies this, r
      ensures Valid() && objects == old(objects) + [obj] && slots == old(slots) + [Tag(a)]
    {
      hide InMaps;
      var id := objectid;
      if id == MAX_REFERENCE { SwitchToMaps(); }
      if id < MAX_REFERENCE {
        r[id] := Reference(obj, Tag(a));
      } else {
        InMapsAdd(ids, addresses, objects, slots, obj, Tag(a));
        id := id + 1;
        ids := ids[obj := id];
        addresses := addresses[id := a];
      }
      objectid, objects, slots := objectid + 1, objects + [obj], slots + [Tag(a)];
    }

    // The part of mark_table that moves the full array into Lua tables.
    method SwitchToMaps()
      requires Valid() && |objects| == MAX_REFERENCE
      modifies this`ids, this`addresses
      ensures InMaps(ids, addresses, objects, slots)
    {
      hide InMaps;
      ids, addresses := map[], map[];
      NothingInMaps(objects, slots);
      for i := 0 to MAX_REFERENCE
        invariant InMaps(ids, addresses, objects[..i], slots[..i])
      {
        InMapsAdd(ids, addresses, objects[..i], slots[..i], objects[i], slots[i]);
        assert objects[..i + 1] == objects[..i] + [objects[i]] && slots[..i + 1] == slots[..i] + [slots[i]];
        ids := ids[r[i].table := i + 1];
        if r[i].slot.Tag? {
          addresses := addresses[i + 1 := r[i].slot.address];
        }
      }
      assert objects[..MAX_REFERENCE] == objects && slots[..MAX_REFERENCE] == slots;
    }

    // lookup_ref while the array is in use
    method LookupArray(obj: nat, wb: BlockChain) returns (id: nat)
      requires Valid() && objectid <= MAX_REFERENCE
      requires wb.Valid() && {this, r} !! wb.Repr && TagsInPlace(slots, wb.data)
      modifies this`slots, r, wb.Repr
      ensures Valid() && wb.Valid() && wb.Repr == old(wb.Repr)
      ensures id == (if obj in objects then IndexOf(objects, obj) + 1 else 0)
      ensures slots == Visited(old(slots), id) && wb.data == AfterVisit(old(slots), old(wb.data), id)
    {
      hide BlockChain.Valid;
      for i := 0 to objectid
        invariant forall j | 0 <= j < i :: objects[j] != obj
        invariant slots == old(slots) && wb.data == old(wb.data) && wb.Repr == old(wb.Repr) && r[..] == old(r[..])
        invariant Valid() && wb.Valid()
      {
        if obj == r[i].table {
          SameIndex(objects, i);
          if r[i].slot.Tag? {
            wb.ChangeMark(r[i].slot.address);
            r[i] := Reference(obj, Marked);
          }
          slots := slots[i := Marked];
          return i + 1;
        }
      }
      id := 0;
    }

    // lookup_ref once the Lua tables are in use
    method LookupMaps(obj: nat, wb: BlockChain) returns (id: nat)
      requires Valid() && objectid > MAX_REFERENCE
      requires wb.Valid() && {this, r} !! wb.Repr && TagsInPlace(slots, wb.data)
      modifies this`slots, this`addresses, wb.Repr
      ensures Valid() && wb.Valid() && wb.Repr == old(wb.Repr)
      ensures id == (if obj in objects then IndexOf(objects, obj) + 1 else 0)
      ensures slots == Visited(old(slots), id) && wb.data == AfterVisit(old(slots), old(wb.data), id)
    {
      hide BlockChain.Valid;
      InMapsLookup(ids, addresses, objects, slots, obj);
      if obj !in ids { return 0; }
      id := ids[obj];
      assert slots[id - 1] == if id - 1 + 1 in addresses then Tag(addresses[id - 1 + 1]) else Marked;
      InMapsMark(ids, addresses, objects, slots, id);
      if id in addresses {
        wb.ChangeMark(addresses[id]);
        addresses := addresses - {id};
      } else {
        assert addresses - {id} == addresses;
      }
      slots := slots[id - 1 := Marked];
    }

    // lookup_ref: the preorder number of a table seen before, or 0. The first
    // reference to a table marks its tag.
    method Lookup(obj: nat, wb: BlockChain) returns (id: nat)
      requires Valid() && wb.Valid() && {this, r} !! wb.Repr && TagsInPlace(slots, wb.data)
      modifies this`slots, this`addresses, r, wb.Repr
      ensures Valid() && wb.Valid() && wb.Repr == old(wb.Repr)
      ensures id == (if obj in objects then IndexOf(objects, obj) + 1 else 0)
      ensures slots == Visited(old(slots), id) && wb.data == AfterVisit(old(slots), old(wb.data), id)
    {
      hide BlockChain.Valid, Visited, AfterVisit;
      if objectid <= MAX_REFERENCE {
        id := LookupArray(obj, wb);
      } else {
        id := LookupMaps(obj, wb);
      }
    }
  }

  lemma NothingInMaps(objects: seq<nat>, slots: seq<Slot>)
    ensures InMaps(map[], map[], objects[..0], slots[..0])
  {
  }

  // Table `id` has been referred to: its slot is cleared ...
  ghost function Visited(slots: seq<Slot>, id: nat): seq<Slot>
    requires id <= |slots|
  {
    if id == 0 then slots else slots[id - 1 := Marked]
  }

  // ... and its tag patched, if it was not before.
  ghost function AfterVisit(slots: seq<Slot>, data: bytes, id: nat): bytes
    requires id <= |slots| && TagsInPlace(slots, data)
  {
    if id == 0 || slots[id - 1].Marked? then data else Patched(data, slots[id - 1].address.Position())
  }
}
