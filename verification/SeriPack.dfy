// What src/lua-seri.c writes for a list of Lua values: a sequence of tokens,
// and the bytes those tokens become once it is known which tables are
// referenced by id later in the stream.
module SeriPack {
  import opened Sets
  import opened SeriFormat

  datatype Pair = Pair(key: Value, val: Value)

  // A Lua table without __pairs: the border lua_rawlen reports and the
  // key-value pairs in the order lua_next visits them.
  datatype Tab = Tab(border: size, entries: seq<Pair>)

  type Heap = map<nat, Tab>

  // ---------------------------------------------------------- well-formedness

  // A key of a Lua table: never nil, and in one normal form per key.
  predicate GoodTab(t: Tab) {
    && (forall i | 0 <= i < |t.entries| :: t.entries[i].key != Nil && t.entries[i].val != Nil)
    && (forall i, j | 0 <= i < j < |t.entries| :: t.entries[i].key != t.entries[j].key)
  }

  predicate Known(h: Heap, v: Value) {
    v.Table? ==> v.ref in h
  }

  // No dangling references: every table mentioned is in the heap.
  ghost predicate GoodHeap(h: Heap) {
    forall r | r in h :: GoodTab(h[r]) &&
      forall i | 0 <= i < |h[r].entries| :: Known(h, h[r].entries[i].key) && Known(h, h[r].entries[i].val)
  }

  // Hash keys are scalars or values pack refuses; no table is used as a key.
  predicate ScalarKeys(t: Tab) {
    forall i | 0 <= i < |t.entries| :: !t.entries[i].key.Table?
  }

  // ------------------------------------------------------- a table's children

  // lua_rawget
  function Get(entries: seq<Pair>, key: Value): Value {
    if entries == [] then Nil
    else if entries[|entries| - 1].key == key then entries[|entries| - 1].val
    else Get(entries[..|entries| - 1], key)
  }

  // Elements from+1 .. border, as lua_rawgeti reads them.
  function ArrayFrom(t: Tab, from: nat): (r: seq<Value>)
    requires from <= t.border
    ensures |r| == t.border - from
    decreases t.border - from
  {
    if from == t.border then [] else [Get(t.entries, Int(from + 1))] + ArrayFrom(t, from + 1)
  }

  predicate InArray(t: Tab, key: Value) {
    key.Int? && 0 < key.i <= t.border
  }

  // The pairs written after the array part: lua_next without the array keys.
  function HashPart(t: Tab, from: nat): seq<Pair>
    requires from <= |t.entries|
    decreases |t.entries| - from
  {
    if from == |t.entries| then []
    else (if InArray(t, t.entries[from].key) then [] else [t.entries[from]]) + HashPart(t, from + 1)
  }

  // How many of the first n entries are outside the array part.
  function HashCount(t: Tab, n: nat): nat
    requires n <= |t.entries|
  {
    if n == 0 then 0 else HashCount(t, n - 1) + if InArray(t, t.entries[n - 1].key) then 0 else 1
  }

  lemma {:induction false} HashCountGrows(t: Tab, a: nat, b: nat)
    requires a <= b <= |t.entries|
    ensures HashCount(t, a) <= HashCount(t, b)
  {
    if a < b { HashCountGrows(t, a, b - 1); }
  }

  lemma {:induction false} HashSize(t: Tab, from: nat)
    requires from <= |t.entries|
    ensures |HashPart(t, from)| == HashCount(t, |t.entries|) - HashCount(t, from)
    decreases |t.entries| - from
  {
    if from < |t.entries| { HashSize(t, from + 1); }
  }

  lemma {:induction false} HashAt(t: Tab, from: nat, i: nat)
    requires from <= i < |t.entries| && !InArray(t, t.entries[i].key)
    ensures 0 <= HashCount(t, i) - HashCount(t, from) < |HashPart(t, from)|
    ensures HashPart(t, from)[HashCount(t, i) - HashCount(t, from)] == t.entries[i]
    decreases |t.entries| - from
  {
    HashSize(t, from);
    HashCountGrows(t, from, i);
    HashCountGrows(t, i + 1, |t.entries|);
    if from < i {
      HashAt(t, from + 1, i);
      HashCountGrows(t, from + 1, i);
    }
  }

  // The pairs after the array part are the entries outside it, each in its
  // place in the order of lua_next.
  lemma HashInOrder(t: Tab, i: nat)
    requires i < |t.entries| && !InArray(t, t.entries[i].key)
    ensures |HashPart(t, 0)| == HashCount(t, |t.entries|)
    ensures HashCount(t, i) < |HashPart(t, 0)| && HashPart(t, 0)[HashCount(t, i)] == t.entries[i]
  {
    HashSize(t, 0);
    HashAt(t, 0, i);
  }

  function Flatten(pairs: seq<Pair>): seq<Value> {
    if pairs == [] then [] else [pairs[0].key, pairs[0].val] + Flatten(pairs[1..])
  }

  function Children(t: Tab): seq<Value> {
    ArrayFrom(t, 0) + (Flatten(HashPart(t, 0)) + [Nil])
  }

  lemma HashPartUnfold(t: Tab, from: nat)
    requires from < |t.entries|
    ensures var e, rest := t.entries[from], HashPart(t, from + 1);
      Flatten(HashPart(t, from)) == if InArray(t, e.key) then Flatten(rest) else [e.key, e.val] + Flatten(rest)
  {
    var e, rest := t.entries[from], HashPart(t, from + 1);
    if InArray(t, e.key) {
      assert HashPart(t, from) == rest;
    } else {
      assert HashPart(t, from)[1..] == rest;
    }
  }

  predicate AllKnown(h: Heap, vs: seq<Value>) {
    forall v | v in vs :: Known(h, v)
  }

  lemma {:induction false} GetKnown(h: Heap, entries: seq<Pair>, key: Value)
    requires forall i | 0 <= i < |entries| :: Known(h, entries[i].val)
    ensures Known(h, Get(entries, key))
  {
    if entries != [] { GetKnown(h, entries[..|entries| - 1], key); }
  }

  lemma {:induction false} ArrayKnown(h: Heap, t: Tab, from: nat)
    requires from <= t.border && forall i | 0 <= i < |t.entries| :: Known(h, t.entries[i].val)
    ensures AllKnown(h, ArrayFrom(t, from))
    decreases t.border - from
  {
    if from < t.border {
      GetKnown(h, t.entries, Int(from + 1));
      ArrayKnown(h, t, from + 1);
    }
  }

  lemma {:induction false} HashKnown(h: Heap, t: Tab, from: nat)
    requires from <= |t.entries|
    requires forall i | 0 <= i < |t.entries| :: Known(h, t.entries[i].key) && Known(h, t.entries[i].val)
    ensures AllKnown(h, Flatten(HashPart(t, from)))
    decreases |t.entries| - from
  {
    if from < |t.entries| {
      HashKnown(h, t, from + 1);
      var rest := HashPart(t, from + 1);
      if !InArray(t, t.entries[from].key) {
        assert ([t.entries[from]] + rest)[1..] == rest;
      } else {
        assert [] + rest == rest;
      }
    }
  }

  lemma ChildrenKnown(h: Heap, r: nat)
    requires GoodHeap(h) && r in h
    ensures AllKnown(h, Children(h[r]))
  {
    ArrayKnown(h, h[r], 0);
    HashKnown(h, h[r], 0);
  }

  // ------------------------------------------------------------------ tokens

  datatype Token =
    | Scalar(v: Value)
    | Head(id: nat, n: size)   // a table's tag: its preorder number and array size
    | Ancestor(i: nat)         // an open table, by depth
    | Object(id: nat)          // a table seen before, by preorder number

  const MAX_DEPTH := 31

  // Tables packed so far, in preorder. Table ids[k] has number k + 1.
  predicate Distinct(ids: seq<nat>) {
    forall i, j | 0 <= i < j < |ids| :: ids[i] != ids[j]
  }

  ghost predicate GoodIds(h: Heap, ids: seq<nat>) {
    Distinct(ids) && forall r | r in ids :: r in h
  }

  function IndexOf(ids: seq<nat>, r: nat): (i: nat)
    requires r in ids
    ensures i < |ids| && ids[i] == r
    ensures forall j | 0 <= j < i :: ids[j] != r
  {
    if ids[0] == r then 0 else 1 + IndexOf(ids[1..], r)
  }

  function Elements(ids: seq<nat>): set<nat> {
    set r | r in ids
  }

  ghost function Unseen(h: Heap, ids: seq<nat>): nat {
    |h.Keys - Elements(ids)|
  }

  lemma UnseenShrinks(h: Heap, ids: seq<nat>, r: nat)
    requires r in h && r !in ids
    ensures Unseen(h, ids + [r]) < Unseen(h, ids)
  {
    var before, after := h.Keys - Elements(ids), h.Keys - Elements(ids + [r]);
    assert after == before - {r};
    assert r in before;
  }

  lemma UnseenMonotone(h: Heap, ids: seq<nat>, more: seq<nat>)
    requires ids <= more
    ensures Unseen(h, more) <= Unseen(h, ids)
  {
    SubsetSize(h.Keys - Elements(more), h.Keys - Elements(ids));
  }

  // ref_ancestor: only at depth 1..30
  predicate ByAncestor(anc: seq<nat>, r: nat) {
    0 < |anc| < MAX_DEPTH && r in anc
  }

  datatype Packed = Packed(toks: seq<Token>, ids: seq<nat>) | Refused

  // pack_one for one value. `anc` are the open tables, outermost first.
  ghost function PackValue(h: Heap, v: Value, anc: seq<nat>, ids: seq<nat>): (p: Packed)
    requires GoodHeap(h) && Known(h, v) && GoodIds(h, ids)
    ensures p.Packed? ==> ids <= p.ids && GoodIds(h, p.ids)
    decreases Unseen(h, ids), 0
  {
    match v
    case Other => Refused
    case Table(r) =>
      if ByAncestor(anc, r) then Packed([Ancestor(IndexOf(anc, r))], ids)
      else if r in ids then Packed([Object(IndexOf(ids, r) + 1)], ids)
      else
        UnseenShrinks(h, ids, r);
        ChildrenKnown(h, r);
        var p := PackValues(h, Children(h[r]), anc + [r], ids + [r]);
        if p.Refused? then Refused else Packed([Head(|ids| + 1, h[r].border)] + p.toks, p.ids)
    case _ => Packed([Scalar(v)], ids)
  }

  // Several values one after the other.
  ghost function PackValues(h: Heap, vs: seq<Value>, anc: seq<nat>, ids: seq<nat>): (p: Packed)
    requires GoodHeap(h) && AllKnown(h, vs) && GoodIds(h, ids)
    ensures p.Packed? ==> ids <= p.ids && GoodIds(h, p.ids)
    decreases Unseen(h, ids), |vs|
  {
    if vs == [] then Packed([], ids)
    else
      assert vs[0] in vs;
      var p := PackValue(h, vs[0], anc, ids);
      if p.Refused? then Refused else
      UnseenMonotone(h, ids, p.ids);
      var q := PackValues(h, vs[1..], anc, p.ids);
      if q.Refused? then Refused else Packed(p.toks + q.toks, q.ids)
  }

  // What packing a table met for the first time amounts to.
  lemma PackNewTable(h: Heap, r: nat, anc: seq<nat>, ids: seq<nat>) returns (body: Packed)
    requires GoodHeap(h) && r in h && GoodIds(h, ids) && !ByAncestor(anc, r) && r !in ids
    ensures GoodIds(h, ids + [r]) && AllKnown(h, Children(h[r])) && Unseen(h, ids + [r]) < Unseen(h, ids)
    ensures body == PackValues(h, Children(h[r]), anc + [r], ids + [r])
    ensures body.Packed? ==> ids + [r] <= body.ids && GoodIds(h, body.ids)
    ensures PackValue(h, Table(r), anc, ids) ==
      if body.Refused? then Refused else Packed([Head(|ids| + 1, h[r].border)] + body.toks, body.ids)
  {
    UnseenShrinks(h, ids, r);
    ChildrenKnown(h, r);
    body := PackValues(h, Children(h[r]), anc + [r], ids + [r]);
  }

  // ... and packing a list.
  lemma PackList(h: Heap, vs: seq<Value>, anc: seq<nat>, ids: seq<nat>) returns (p: Packed, q: Packed)
    requires GoodHeap(h) && AllKnown(h, vs) && GoodIds(h, ids) && vs != []
    ensures Known(h, vs[0]) && AllKnown(h, vs[1..])
    ensures p == PackValue(h, vs[0], anc, ids)
    ensures p.Packed? ==> ids <= p.ids && GoodIds(h, p.ids) && Unseen(h, p.ids) <= Unseen(h, ids)
    ensures p.Packed? ==> q == PackValues(h, vs[1..], anc, p.ids)
    ensures p.Packed? && q.Packed? ==> p.ids <= q.ids && GoodIds(h, q.ids)
    ensures PackValues(h, vs, anc, ids) ==
      if p.Refused? || q.Refused? then Refused else Packed(p.toks + q.toks, q.ids)
  {
    assert vs[0] in vs;
    p := PackValue(h, vs[0], anc, ids);
    q := Refused;
    if p.Packed? {
      UnseenMonotone(h, ids, p.ids);
      q := PackValues(h, vs[1..], anc, p.ids);
    }
  }

  lemma NilPacks(h: Heap, anc: seq<nat>, ids: seq<nat>)
    requires GoodHeap(h) && AllKnown(h, [Nil]) && GoodIds(h, ids)
    ensures PackValues(h, [Nil], anc, ids) == Packed([Scalar(Nil)], ids)
  {
    assert [Nil][1..] == [];
    assert [Scalar(Nil)] + [] == [Scalar(Nil)];
  }

  lemma {:induction false} PackConcat(h: Heap, xs: seq<Value>, ys: seq<Value>, anc: seq<nat>, ids: seq<nat>)
    requires GoodHeap(h) && AllKnown(h, xs) && AllKnown(h, ys) && GoodIds(h, ids)
    ensures AllKnown(h, xs + ys)
    ensures var p := PackValues(h, xs, anc, ids);
      PackValues(h, xs + ys, anc, ids) ==
        if p.Refused? then Refused else
        var q := PackValues(h, ys, anc, p.ids);
        if q.Refused? then Refused else Packed(p.toks + q.toks, q.ids)
    decreases |xs|
  {
    hide PackValue, GoodHeap, GoodIds;
    if xs == [] {
      assert xs + ys == ys;
      var q := PackValues(h, ys, anc, ids);
      if q.Packed? { assert [] + q.toks == q.toks; }
    } else {
      assert xs[0] in xs;
      assert (xs + ys)[0] == xs[0] && (xs + ys)[1..] == xs[1..] + ys;
      var p := PackValue(h, xs[0], anc, ids);
      if p.Packed? {
        PackConcat(h, xs[1..], ys, anc, p.ids);
        var p1 := PackValues(h, xs[1..], anc, p.ids);
        if p1.Packed? {
          var q := PackValues(h, ys, anc, p1.ids);
          if q.Packed? { assert p.toks + (p1.toks + q.toks) == p.toks + p1.toks + q.toks; }
        }
      }
    }
  }

  // ------------------------------------------------------------------- bytes

  // The ids some Object token refers to: these tables get TYPE_TABLE_MARK.
  function Referenced(toks: seq<Token>): set<nat> {
    set t | t in toks && t.Object? :: t.id
  }

  function EncodeHead(n: size, mark: bool): (r: bytes)
    ensures |r| > 0
  {
    var t := if mark then TYPE_TABLE_MARK else TYPE_TABLE;
    if n >= EXTEND_NUMBER then [Combine(t, EXTEND_NUMBER)] + EncodeInt(n) else [Combine(t, n)]
  }

  function EncodeToken(t: Token, marked: set<nat>): (r: bytes)
    ensures |r| > 0
  {
    match t
    case Scalar(v) => if IsScalar(v) then EncodeScalar(v) else [0]
    case Head(id, n) => EncodeHead(n, id in marked)
    case Ancestor(i) => [Combine(TYPE_REF, i % MAX_COOKIE)]
    case Object(id) => [Combine(TYPE_REF, EXTEND_NUMBER)] + EncodeInt(id)
  }

  function Render(toks: seq<Token>, marked: set<nat>): bytes {
    if toks == [] then [] else EncodeToken(toks[0], marked) + Render(toks[1..], marked)
  }

  lemma {:induction false} RenderConcat(xs: seq<Token>, ys: seq<Token>, marked: set<nat>)
    ensures Render(xs + ys, marked) == Render(xs, marked) + Render(ys, marked)
  {
    if xs == [] {
      assert xs + ys == ys;
    } else {
      assert (xs + ys)[1..] == xs[1..] + ys;
      RenderConcat(xs[1..], ys, marked);
    }
  }

  // seri_pack, without the length header: the whole stream for a list of values.
  ghost function PackAll(h: Heap, vs: seq<Value>): Result<bytes>
    requires GoodHeap(h) && AllKnown(h, vs)
  {
    var p := PackValues(h, vs, [], []);
    if p.Refused? then Invalid else Ok(Render(p.toks, Referenced(p.toks)))
  }
}
