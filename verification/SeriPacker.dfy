// The packer as it runs: a depth counter, an array of open tables, a record
// of tables seen, and a block chain whose bytes are patched in place. It is
// proved to write exactly the stream that SeriPack describes.
module SeriPacker {
  import opened SeriFormat
  import opened SeriPack
  import opened SeriImage
  import opened SeriBlocks
  import opened SeriPatch
  import opened SeriWriter

  // The chain holds the stream for `toks`; every table not yet referred to by
  // id has the address of its tag on record.
  ghost predicate Linked(toks: seq<Token>, data: bytes, slots: seq<Slot>) {
    && data == Render(toks, Referenced(toks))
    && Numbers(Heads(toks), |slots|)
    && (forall id | id in Referenced(toks) :: 0 < id <= |slots|)
    && (forall i | 0 <= i < |slots| :: slots[i].Marked? <==> i + 1 in Referenced(toks))
    && (forall i | 0 <= i < |slots| && slots[i].Tag? ::
          slots[i].address.offset < BLOCK_SIZE && TagAt(toks, i + 1, slots[i].address))
  }

  ghost predicate TagAt(toks: seq<Token>, id: nat, a: Address) {
    id in Heads(toks) && Offset(toks, id) == a.Position()
  }

  lemma HeadOf(toks: seq<Token>, n: nat, id: nat)
    requires Numbers(Heads(toks), n)
    ensures 0 < id <= n <==> id in Heads(toks)
    ensures Distinct(Heads(toks))
  {
    if 0 < id <= n { assert Heads(toks)[id - 1] == id; }
  }

  // The assertion in change_mark holds.
  lemma TagsFound(toks: seq<Token>, data: bytes, slots: seq<Slot>)
    requires Linked(toks, data, slots)
    ensures TagsInPlace(slots, data)
  {
    forall i | 0 <= i < |slots| && slots[i].Tag?
      ensures slots[i].address.Position() < |data| && data[slots[i].address.Position()] % 8 == TYPE_TABLE
    {
      hide Render, Heads, Offset, Referenced;
      HeadOf(toks, |slots|, i + 1);
      PatchRender(toks, Referenced(toks), i + 1);
    }
  }

  lemma LinkedPlain(toks: seq<Token>, t: Token, data: bytes, slots: seq<Slot>)
    requires Linked(toks, data, slots) && (t.Scalar? || t.Ancestor?)
    ensures Linked(toks + [t], data + EncodeToken(t, {}), slots)
  {
    hide Render, Offset;
    WriteToken(toks, t);
    assert Referenced(toks + [t]) == Referenced(toks);
    SameLetters(t, Referenced(toks));
    HeadsConcat(toks, [t]);
    assert Heads([t]) == [];
    assert Heads(toks + [t]) == Heads(toks);
    forall i | 0 <= i < |slots| && slots[i].Tag? ensures TagAt(toks + [t], i + 1, slots[i].address) {
      OffsetKept(toks, [t], i + 1);
    }
  }

  lemma SameLetters(t: Token, M: set<nat>)
    requires t.Head? ==> t.id !in M
    ensures EncodeToken(t, M) == EncodeToken(t, {})
  {
  }

  lemma LinkedHead(toks: seq<Token>, n: size, data: bytes, slots: seq<Slot>, a: Address)
    requires Linked(toks, data, slots) && a.offset < BLOCK_SIZE && a.Position() == |data|
    ensures Linked(toks + [Head(|slots| + 1, n)], data + EncodeHead(n, false), slots + [Tag(a)])
  {
    hide Render, Offset, Heads, EncodeToken;
    var t := Head(|slots| + 1, n);
    WriteToken(toks, t);
    assert Referenced(toks + [t]) == Referenced(toks);
    SameLetters(t, Referenced(toks));
    PlainHead(t);
    HeadsConcat(toks, [t]);
    OneHead(t);
    HeadOf(toks, |slots|, |slots| + 1);
    OffsetOfNext(toks, |slots| + 1, n, Referenced(toks));
    forall i | 0 <= i < |slots| && slots[i].Tag? ensures TagAt(toks + [t], i + 1, slots[i].address) {
      OffsetKept(toks, [t], i + 1);
    }
  }

  lemma OneHead(t: Token)
    requires t.Head?
    ensures Heads([t]) == [t.id]
  {
    assert [t][1..] == [];
  }

  lemma PlainHead(t: Token)
    requires t.Head?
    ensures EncodeToken(t, {}) == EncodeHead(t.n, false)
  {
  }

  lemma VisitRenders(toks: seq<Token>, data: bytes, slots: seq<Slot>, id: nat)
    requires Linked(toks, data, slots) && 0 < id <= |slots| && TagsInPlace(slots, data)
    ensures AfterVisit(slots, data, id) == Render(toks, Referenced(toks) + {id})
  {
    hide Render, Offset, Heads;
    HeadOf(toks, |slots|, id);
    if id in Referenced(toks) {
      assert Referenced(toks) + {id} == Referenced(toks);
    } else {
      PatchRender(toks, Referenced(toks), id);
    }
  }

  lemma LinkedObject(toks: seq<Token>, data: bytes, slots: seq<Slot>, id: nat)
    requires Linked(toks, data, slots) && 0 < id <= |slots| && TagsInPlace(slots, data)
    ensures Linked(toks + [Object(id)], AfterVisit(slots, data, id) + EncodeToken(Object(id), {}), Visited(slots, id))
  {
    hide Render, Offset, AfterVisit;
    var t := Object(id);
    VisitRenders(toks, data, slots, id);
    WriteToken(toks, t);
    HeadsConcat(toks, [t]);
    assert Heads([t]) == [];
    forall i | 0 <= i < |slots| && slots[i].Tag? ensures TagAt(toks + [t], i + 1, slots[i].address) {
      OffsetKept(toks, [t], i + 1);
    }
  }

  // Tokens written, and then what is still to come.
  ghost function Then(toks: seq<Token>, p: Packed): Packed {
    if p.Refused? then Refused else Packed(toks + p.toks, p.ids)
  }

  lemma ThenThen(a: seq<Token>, b: seq<Token>, p: Packed)
    ensures Then(a, Then(b, p)) == Then(a + b, p)
  {
    if p.Packed? { assert a + (b + p.toks) == a + b + p.toks; }
  }

  // Packing a list goes on after its first value.
  lemma ThenRest(h: Heap, v: Value, vs: seq<Value>, anc: seq<nat>, ids: seq<nat>, toks: seq<Token>)
    requires GoodHeap(h) && AllKnown(h, [v] + vs) && GoodIds(h, ids)
    ensures Known(h, v) && AllKnown(h, vs)
    ensures var p := PackValue(h, v, anc, ids);
      Then(toks, PackValues(h, [v] + vs, anc, ids)) ==
        if p.Refused? then Refused else Then(toks + p.toks, PackValues(h, vs, anc, p.ids))
  {
    hide PackValue, PackValues, GoodHeap, Unseen, Then;
    assert ([v] + vs)[1..] == vs;
    var p, q := PackList(h, [v] + vs, anc, ids);
    if p.Packed? && q.Packed? { ThenThen(toks, p.toks, q); ThenUnfold(p.toks, q); }
    ThenRefused(toks); if p.Packed? { ThenRefused(toks + p.toks); }
  }

  lemma ThenUnfold(toks: seq<Token>, p: Packed)
    requires p.Packed?
    ensures Then(toks, p) == Packed(toks + p.toks, p.ids)
  {
  }

  lemma ThenRefused(toks: seq<Token>)
    ensures Then(toks, Refused) == Refused
  {
  }

  lemma ThenNothing(h: Heap, anc: seq<nat>, ids: seq<nat>, toks: seq<Token>)
    requires GoodHeap(h) && GoodIds(h, ids)
    ensures AllKnown(h, []) && Then(toks, PackValues(h, [], anc, ids)) == Packed(toks, ids)
  {
  }

  lemma ThenTable(h: Heap, r: nat, anc: seq<nat>, ids: seq<nat>, toks: seq<Token>)
    requires GoodHeap(h) && r in h && GoodIds(h, ids) && !ByAncestor(anc, r) && r !in ids
    ensures GoodIds(h, ids + [r]) && AllKnown(h, Children(h[r])) && Unseen(h, ids + [r]) < Unseen(h, ids)
    ensures Then(toks, PackValue(h, Table(r), anc, ids)) ==
      Then(toks + [Head(|ids| + 1, h[r].border)], PackValues(h, Children(h[r]), anc + [r], ids + [r]))
  {
    hide PackValue, PackValues, GoodHeap, Unseen;
    var body := PackNewTable(h, r, anc, ids);
    ThenThen(toks, [Head(|ids| + 1, h[r].border)], body);
  }

  lemma ThenConcat(h: Heap, xs: seq<Value>, ys: seq<Value>, anc: seq<nat>, ids: seq<nat>, toks: seq<Token>)
    requires GoodHeap(h) && AllKnown(h, xs + ys) && GoodIds(h, ids)
    ensures AllKnown(h, xs) && AllKnown(h, ys)
    ensures var p := PackValues(h, xs, anc, ids);
      Then(toks, PackValues(h, xs + ys, anc, ids)) ==
        if p.Refused? then Refused else Then(toks + p.toks, PackValues(h, ys, anc, p.ids))
  {
    hide PackValue, PackValues, GoodHeap;
    assert forall v | v in xs :: v in xs + ys;
    assert forall v | v in ys :: v in xs + ys;
    PackConcat(h, xs, ys, anc, ids);
    var p := PackValues(h, xs, anc, ids);
    if p.Packed? { ThenThen(toks, p.toks, PackValues(h, ys, anc, p.ids)); }
  }

  lemma WithinGrows(open: seq<nat>, ids: seq<nat>, r: nat, more: seq<nat>)
    requires Within(open, ids) && ids + [r] <= more
    ensures Within(open, more)
  {
    forall x | x in open ensures x in more {
      var k :| 0 <= k < |ids| && ids[k] == x;
      assert more[k] == (ids + [r])[k];
    }
  }

  lemma HashPartDone(t: Tab)
    ensures Flatten(HashPart(t, |t.entries|)) + [Nil] == [Nil]
  {
  }

  // struct write_block, with the Lua state's tables
  class Packer {
    const h: Heap
    const wb: BlockChain
    const refs: References
    const ancestor: array<nat>
    var depth: nat
    ghost var toks: seq<Token>
    ghost var open: seq<nat>   // all open tables, also beyond MAX_DEPTH

    ghost predicate Shape()
      reads this, wb, wb.Repr, refs, refs.r, ancestor
    {
      && wb.Valid() && refs.Valid() && GoodHeap(h) && GoodIds(h, refs.objects)
      && {this, refs, refs.r, ancestor} !! wb.Repr
      && Linked(toks, wb.data, refs.slots)
      && depth == |open| && ancestor.Length == MAX_DEPTH
      && (forall i | 0 <= i < |open| && i < MAX_DEPTH :: ancestor[i] == open[i])
      && Distinct(open)
    }

    ghost predicate Valid()
      reads this, wb, wb.Repr, refs, refs.r, ancestor
    {
      Shape() && Within(open, refs.objects)
    }

    // Table r is open but not on record yet.
    ghost predicate Opened(r: nat)
      reads this, wb, wb.Repr, refs, refs.r, ancestor
    {
      Shape() && r in h && r !in refs.objects && Within(open, refs.objects + [r])
    }

    constructor (h: Heap)
      requires GoodHeap(h)
      ensures Valid() && this.h == h && toks == [] && open == [] && refs.objects == []
      ensures fresh(this) && fresh(wb) && fresh(wb.Repr) && fresh(refs) && fresh(refs.r) && fresh(ancestor)
    {
      this.h := h;
      wb := new BlockChain();
      refs := new References();
      ancestor := new nat[MAX_DEPTH](_ => 0);
      depth, toks, open := 0, [], [];
    }

    // ref_ancestor
    method RefAncestor(r: nat) returns (found: bool)
      requires Valid()
      modifies this`toks, wb.Repr
      ensures Valid() && fresh(wb.Repr - old(wb.Repr)) && old(wb.Repr) <= wb.Repr
      ensures found == ByAncestor(open, r)
      ensures toks == if found then old(toks) + [Ancestor(IndexOf(open, r))] else old(toks)
    {
      hide BlockChain.Valid, References.Valid, Linked, GoodHeap, GoodIds;
      found := false;
      if depth == 0 || depth >= MAX_DEPTH { return; }
      var i := depth;
      while i > 0
        invariant 0 <= i <= depth && forall j | i <= j < depth :: open[j] != r
      {
        i := i - 1;
        if ancestor[i] == r {
          SameIndex(open, i);
          LinkedPlain(toks, Ancestor(i), wb.data, refs.slots);
          wb.Push([Combine(TYPE_REF, i)]);
          toks := toks + [Ancestor(i)];
          return true;
        }
      }
    }

    // ref_object
    method RefObject(r: nat) returns (found: bool)
      requires Valid()
      modifies this`toks, refs`slots, refs`addresses, refs.r, wb.Repr
      ensures Valid() && fresh(wb.Repr - old(wb.Repr)) && old(wb.Repr) <= wb.Repr
      ensures found == (r in refs.objects)
      ensures toks == if found then old(toks) + [Object(IndexOf(refs.objects, r) + 1)] else old(toks)
    {
      hide BlockChain.Valid, Linked, GoodHeap, EncodeToken, TagsInPlace;
      TagsFound(toks, wb.data, refs.slots);
      var id := refs.Lookup(r, wb);
      if id > 0 {
        LinkedObject(toks, old(wb.data), old(refs.slots), id);
        WriteObject(wb, id);
        toks := toks + [Object(id)];
        return true;
      }
      return false;
    }

    // The scalar cases of pack_one, and wb_nil at the end of a table.
    method PackScalar(v: Value)
      requires Valid() && IsScalar(v)
      modifies this`toks, wb.Repr
      ensures Valid() && fresh(wb.Repr - old(wb.Repr)) && old(wb.Repr) <= wb.Repr
      ensures toks == old(toks) + [Scalar(v)]
    {
      hide BlockChain.Valid, Linked, GoodHeap, EncodeScalar;
      LinkedPlain(toks, Scalar(v), wb.data, refs.slots);
      WriteScalar(wb, v);
      toks := toks + [Scalar(v)];
    }

    // wb_table up to the array size: mark_table and the tag
    method BeginTable(r: nat)
      requires Opened(r)
      modifies this`toks, refs, refs.r, wb, wb.Repr
      ensures Valid() && fresh(wb.Repr - old(wb.Repr)) && old(wb.Repr) <= wb.Repr
      ensures toks == old(toks) + [Head(|old(refs.objects)| + 1, h[r].border)]
      ensures refs.objects == old(refs.objects) + [r]
    {
      hide BlockChain.Valid, Linked, GoodHeap, EncodeHead;
      var a := wb.NextAddress();
      refs.Record(r, a);
      LinkedHead(toks, h[r].border, wb.data, old(refs.slots), a);
      WriteHead(wb, h[r].border);
      toks := toks + [Head(|old(refs.objects)| + 1, h[r].border)];
    }

    // pack_one
    method PackOne(v: Value) returns (ok: bool)
      requires Valid() && Known(h, v)
      modifies this, refs, refs.r, ancestor, wb, wb.Repr
      ensures Then(old(toks), PackValue(h, v, old(open), old(refs.objects))) ==
        if ok then Packed(toks, refs.objects) else Refused
      ensures ok ==> Valid() && open == old(open) && old(refs.objects) <= refs.objects
      ensures fresh(wb.Repr - old(wb.Repr)) && old(wb.Repr) <= wb.Repr
      decreases Unseen(h, refs.objects), 1
    {
      hide BlockChain.Valid, References.Valid, Linked, GoodHeap, Unseen, PackValues;
      match v {
        case Table(r) =>
          ok := PackReference(r);
          if !ok { ok := PackNew(r); }
        case Other =>
          ok := false;
        case _ =>
          PackScalar(v);
          ok := true;
      }
    }

    // The two ways pack_one refers to a table it has met before.
    method PackReference(r: nat) returns (found: bool)
      requires Valid() && r in h
      modifies this`toks, refs`slots, refs`addresses, refs.r, wb.Repr
      ensures Valid() && fresh(wb.Repr - old(wb.Repr)) && old(wb.Repr) <= wb.Repr
      ensures found <==> ByAncestor(open, r) || r in refs.objects
      ensures if found then Then(old(toks), PackValue(h, Table(r), open, refs.objects)) == Packed(toks, refs.objects)
        else toks == old(toks)
    {
      hide BlockChain.Valid, References.Valid, Linked, GoodHeap, Unseen, PackValues;
      found := RefAncestor(r);
      if !found { found := RefObject(r); }
    }

    // pack_one for a table met for the first time
    method PackNew(r: nat) returns (ok: bool)
      requires Valid() && r in h && !ByAncestor(open, r) && r !in refs.objects
      modifies this, refs, refs.r, ancestor, wb, wb.Repr
      ensures Then(old(toks), PackValue(h, Table(r), old(open), old(refs.objects))) ==
        if ok then Packed(toks, refs.objects) else Refused
      ensures ok ==> Valid() && open == old(open) && old(refs.objects) <= refs.objects
      ensures fresh(wb.Repr - old(wb.Repr)) && old(wb.Repr) <= wb.Repr
      decreases Unseen(h, refs.objects), 0
    {
      hide BlockChain.Valid, References.Valid, Linked, GoodHeap, Unseen, PackValues, PackValue, Then;
      ThenTable(h, r, open, refs.objects, toks);
      if depth < MAX_DEPTH { ancestor[depth] := r; }
      depth, open := depth + 1, open + [r];
      ok := PackTable(r);
      if ok {
        depth, open := depth - 1, open[..|open| - 1];
        assert open == old(open);
        WithinGrows(open, old(refs.objects), r, refs.objects);
      }
    }

    // wb_table
    method PackTable(r: nat) returns (ok: bool)
      requires Opened(r) && GoodIds(h, refs.objects + [r]) && AllKnown(h, Children(h[r]))
      requires Unseen(h, refs.objects + [r]) < Unseen(h, refs.objects)
      modifies this, refs, refs.r, ancestor, wb, wb.Repr
      ensures
        Then(old(toks) + [Head(|old(refs.objects)| + 1, h[r].border)],
             PackValues(h, Children(h[r]), old(open), old(refs.objects) + [r])) ==
        if ok then Packed(toks, refs.objects) else Refused
      ensures ok ==> Shape() && open == old(open) && old(refs.objects) + [r] <= refs.objects
      ensures fresh(wb.Repr - old(wb.Repr)) && old(wb.Repr) <= wb.Repr
      decreases Unseen(h, refs.objects + [r]), 4
    {
      hide BlockChain.Valid, References.Valid, Linked, GoodHeap, Unseen, PackValues, PackValue, ArrayFrom, Flatten,
           HashPart;
      BeginTable(r);
      ThenConcat(h, ArrayFrom(h[r], 0), Flatten(HashPart(h[r], 0)) + [Nil], open, refs.objects, toks);
      ok := PackArray(r);
      if ok {
        UnseenMonotone(h, old(refs.objects) + [r], refs.objects);
        ok := PackHash(r);
      }
    }

    // wb_table_array after the size: elements 1 .. array size
    method PackArray(r: nat) returns (ok: bool)
      requires Valid() && r in h && AllKnown(h, ArrayFrom(h[r], 0))
      modifies this, refs, refs.r, ancestor, wb, wb.Repr
      ensures Then(old(toks), PackValues(h, ArrayFrom(h[r], 0), old(open), old(refs.objects))) ==
        if ok then Packed(toks, refs.objects) else Refused
      ensures ok ==> Valid() && open == old(open) && old(refs.objects) <= refs.objects
      ensures fresh(wb.Repr - old(wb.Repr)) && old(wb.Repr) <= wb.Repr
      decreases Unseen(h, refs.objects), 2
    {
      hide BlockChain.Valid, References.Valid, Linked, GoodHeap, Unseen, PackValues, PackValue, AllKnown, GoodIds;
      var t := h[r];
      var i := 0;
      while i < t.border
        invariant i <= t.border && AllKnown(h, ArrayFrom(t, i))
        invariant Valid() && open == old(open) && old(refs.objects) <= refs.objects
        invariant fresh(wb.Repr - old(wb.Repr)) && old(wb.Repr) <= wb.Repr
        invariant Then(toks, PackValues(h, ArrayFrom(t, i), open, refs.objects)) ==
          Then(old(toks), PackValues(h, ArrayFrom(t, 0), open, old(refs.objects)))
      {
        var v := Get(t.entries, Int(i + 1));
        ThenRest(h, v, ArrayFrom(t, i + 1), open, refs.objects, toks);
        UnseenMonotone(h, old(refs.objects), refs.objects);
        ok := PackOne(v);
        if !ok { return; }
        i := i + 1;
      }
      ThenNothing(h, open, refs.objects, toks);
      ok := true;
    }

    // wb_table_hash: the pairs outside the array part, then a nil
    method PackHash(r: nat) returns (ok: bool)
      requires Valid() && r in h && AllKnown(h, Flatten(HashPart(h[r], 0)) + [Nil])
      modifies this, refs, refs.r, ancestor, wb, wb.Repr
      ensures Then(old(toks), PackValues(h, Flatten(HashPart(h[r], 0)) + [Nil], old(open), old(refs.objects))) ==
        if ok then Packed(toks, refs.objects) else Refused
      ensures ok ==> Valid() && open == old(open) && old(refs.objects) <= refs.objects
      ensures fresh(wb.Repr - old(wb.Repr)) && old(wb.Repr) <= wb.Repr
      decreases Unseen(h, refs.objects), 3
    {
      hide BlockChain.Valid, References.Valid, Linked, GoodHeap, Unseen, PackValues, PackValue, AllKnown, GoodIds,
           HashPart, Flatten, InArray;
      var t := h[r];
      var i := 0;
      while i < |t.entries|
        invariant i <= |t.entries| && AllKnown(h, Flatten(HashPart(t, i)) + [Nil])
        invariant Valid() && open == old(open) && old(refs.objects) <= refs.objects
        invariant fresh(wb.Repr - old(wb.Repr)) && old(wb.Repr) <= wb.Repr
        invariant Then(toks, PackValues(h, Flatten(HashPart(t, i)) + [Nil], open, refs.objects)) ==
          Then(old(toks), PackValues(h, Flatten(HashPart(t, 0)) + [Nil], open, old(refs.objects)))
      {
        var e := t.entries[i];
        HashPartUnfold(t, i);
        if !InArray(t, e.key) {
          ghost var rest := Flatten(HashPart(t, i + 1)) + [Nil];
          assert Flatten(HashPart(t, i)) + [Nil] == [e.key] + ([e.val] + rest);
          UnseenMonotone(h, old(refs.objects), refs.objects);
          ok := PackPair(e.key, e.val, rest);
          if !ok { return; }
        }
        i := i + 1;
      }
      HashPartDone(t);
      NilPacks(h, open, refs.objects);
      PackScalar(Nil);
      ok := true;
    }

    // The two calls of pack_one in wb_table_hash; `rest` is yet to come.
    method PackPair(key: Value, val: Value, ghost rest: seq<Value>) returns (ok: bool)
      requires Valid() && AllKnown(h, [key] + ([val] + rest))
      modifies this, refs, refs.r, ancestor, wb, wb.Repr
      ensures ok ==> Valid() && open == old(open) && old(refs.objects) <= refs.objects
      ensures fresh(wb.Repr - old(wb.Repr)) && old(wb.Repr) <= wb.Repr
      ensures AllKnown(h, rest) && Then(old(toks), PackValues(h, [key] + ([val] + rest), old(open), old(refs.objects))) ==
        if ok then Then(toks, PackValues(h, rest, open, refs.objects)) else Refused
      decreases Unseen(h, refs.objects), 2
    {
      hide BlockChain.Valid, References.Valid, Linked, GoodHeap, Unseen, PackValues, PackValue, AllKnown, GoodIds;
      ThenRest(h, key, [val] + rest, open, refs.objects, toks);
      ThenRest(h, val, rest, open, refs.objects, toks);
      ok := PackOne(key);
      if ok {
        ThenRest(h, val, rest, open, refs.objects, toks);
        UnseenMonotone(h, old(refs.objects), refs.objects);
        ok := PackOne(val);
      }
    }

    // pack_from: the arguments one after the other
    method PackFrom(vs: seq<Value>) returns (ok: bool)
      requires Valid() && AllKnown(h, vs)
      modifies this, refs, refs.r, ancestor, wb, wb.Repr
      ensures Then(old(toks), PackValues(h, vs, old(open), old(refs.objects))) ==
        if ok then Packed(toks, refs.objects) else Refused
      ensures ok ==> Valid() && open == old(open)
    {
      hide BlockChain.Valid, References.Valid, Linked, GoodHeap, Unseen, PackValues, PackValue, AllKnown, GoodIds;
      var i := 0;
      assert vs[0..] == vs;
      while i < |vs|
        invariant i <= |vs| && AllKnown(h, vs[i..])
        invariant Valid() && open == old(open)
        invariant fresh(wb.Repr - old(wb.Repr)) && old(wb.Repr) <= wb.Repr
        invariant Then(toks, PackValues(h, vs[i..], open, refs.objects)) ==
          Then(old(toks), PackValues(h, vs, open, old(refs.objects)))
      {
        assert vs[i..] == [vs[i]] + vs[i + 1..];
        ThenRest(h, vs[i], vs[i + 1..], open, refs.objects, toks);
        ok := PackOne(vs[i]);
        if !ok { return; }
        i := i + 1;
      }
      ThenNothing(h, open, refs.objects, toks);
      assert vs[i..] == [];
      ok := true;
    }
  }

  // seri_pack: the message is the 4-byte length and the stream of SeriPack.
  method PackMessage(h: Heap, vs: seq<Value>) returns (buffer: array?<byte>)
    requires GoodHeap(h) && AllKnown(h, vs)
    requires PackAll(h, vs).Ok? ==> |PackAll(h, vs).value| < MAX_SIZE
    ensures buffer == null <==> PackAll(h, vs).Invalid?
    ensures buffer != null ==> fresh(buffer) && buffer[..] == LE(4, |PackAll(h, vs).value|) + PackAll(h, vs).value
  {
    hide BlockChain.Valid, References.Valid, GoodHeap, Render, Referenced;
    var p := new Packer(h);
    var ok := p.PackFrom(vs);
    if !ok { return null; }
    ghost var q := PackValues(h, vs, [], []);
    assert [] + q.toks == q.toks;
    buffer := p.wb.Flatten();
  }
}
