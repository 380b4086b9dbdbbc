// Which graphs have only safe references: those without cycles, and those
// without tables as hash keys; and what happens to some that have others.
module SeriCases {
  import opened SeriFormat
  import opened SeriPack
  import opened SeriUnpack
  import opened SeriTokens
  import opened SeriFrame
  import opened SeriImage
  import opened SeriReach
  import opened SeriStraight
  import opened SeriExact
  import opened SeriTheorem

  // ------------------------------------------------------------------- no cycles

  // Each table of the chain is a key or a value of the one before it.
  ghost predicate Chain(h: Heap, path: seq<nat>) {
    (forall i | 0 <= i < |path| :: path[i] in h) && forall i | 0 <= i < |path| - 1 :: Edge(h, path[i], Table(path[i + 1]))
  }

  ghost predicate OnCycle(h: Heap, r: nat) {
    exists path :: |path| > 1 && Chain(h, path) && path[0] == r && path[|path| - 1] == r
  }

  ghost predicate Acyclic(h: Heap, vs: seq<Value>) {
    forall r | Reachable(h, vs, r) :: !OnCycle(h, r)
  }

  // The value is found in the table opened last.
  ghost predicate Below(h: Heap, anc: seq<nat>, v: Value)
    requires Chain(h, anc)
  {
    v.Table? && anc != [] ==> Edge(h, anc[|anc| - 1], v)
  }

  ghost predicate AllBelow(h: Heap, anc: seq<nat>, vs: seq<Value>)
    requires Chain(h, anc)
  {
    forall v | v in vs :: Below(h, anc, v)
  }

  ghost predicate Free(h: Heap, all: seq<nat>) {
    forall r | r in all :: !OnCycle(h, r)
  }

  // A reference by depth closes a cycle.
  lemma AncestorOnCycle(h: Heap, anc: seq<nat>, r: nat)
    requires Chain(h, anc) && r in anc && r in h && Below(h, anc, Table(r))
    ensures OnCycle(h, r)
  {
    var i := IndexOf(anc, r);
    var path := anc[i..] + [r];
    forall k | 0 <= k < |path| - 1 ensures Edge(h, path[k], Table(path[k + 1])) {
      if k < |path| - 2 {
        assert path[k] == anc[i + k] && path[k + 1] == anc[i + k + 1];
      }
    }
  }

  lemma ChainOn(h: Heap, anc: seq<nat>, r: nat)
    requires Chain(h, anc) && r in h && Below(h, anc, Table(r))
    ensures Chain(h, anc + [r])
  {
    var path := anc + [r];
    forall k | 0 <= k < |path| - 1 ensures Edge(h, path[k], Table(path[k + 1])) {
      if k < |anc| - 1 { assert path[k] == anc[k] && path[k + 1] == anc[k + 1]; }
    }
  }

  lemma ChildrenBelow(h: Heap, anc: seq<nat>, r: nat)
    requires GoodHeap(h) && r in h && Chain(h, anc + [r])
    ensures AllBelow(h, anc + [r], ArrayFrom(h[r], 0)) && AllBelow(h, anc + [r], PairValues(HashPart(h[r], 0)))
  {
    hide GoodHeap, Children, ArrayFrom, HashPart;
    TableKnown(h, r);
    forall v | v in Children(h[r]) ensures Below(h, anc + [r], v) {
      if v.Table? { ChildIsEntry(h, r, v); }
    }
  }

  lemma {:induction false} AcyclicValue(h: Heap, all: seq<nat>, v: Value, anc: seq<nat>, ids: seq<nat>, clean: set<nat>, shifted: bool)
    requires GoodHeap(h) && Known(h, v) && GoodIds(h, ids) && Chain(h, anc) && Below(h, anc, v) && Within(anc, all) && Free(h, all)
    requires PackValue(h, v, anc, ids).Packed? && PackValue(h, v, anc, ids).ids <= all
    ensures StraightValue(h, v, anc, ids, clean, shifted)
    decreases Unseen(h, ids), 0
  {
    hide GoodHeap, GoodIds, PackValue, PackValues, Unseen, OnCycle, StraightTable, Below, AllBelow, Chain;
    if New(v, anc, ids) {
      AcyclicTable(h, all, v.ref, anc, ids, Inside(clean, shifted, |anc|), shifted);
      StraightNew(h, v.ref, anc, ids, clean, shifted);
    } else if v.Table? && ByAncestor(anc, v.ref) {
      AncestorOnCycle(h, anc, v.ref);
    }
  }

  lemma {:induction false} AcyclicTable(h: Heap, all: seq<nat>, r: nat, anc: seq<nat>, ids: seq<nat>, clean: set<nat>, shifted: bool)
    requires GoodHeap(h) && r in h && GoodIds(h, ids) && Chain(h, anc) && Below(h, anc, Table(r)) && Within(anc, all) && Free(h, all)
    requires New(Table(r), anc, ids) && PackValue(h, Table(r), anc, ids).Packed? && PackValue(h, Table(r), anc, ids).ids <= all
    ensures GoodIds(h, ids + [r]) && StraightTable(h, r, anc + [r], ids + [r], clean, shifted)
    decreases Unseen(h, ids), 0, 0
  {
    hide GoodHeap, GoodIds, PackValue, PackValues, Unseen, OnCycle, StraightTable, StraightList, StraightPairs, Below, AllBelow, Chain, New,
         PairValues, HashPart, ArrayFrom, Free;
    var pa, pb := TablePacked(h, r, anc, ids);
    ChainOn(h, anc, r);
    ChildrenBelow(h, anc, r);
    WithinAll(anc, all, ids, r, pa.ids);
    AcyclicList(h, all, ArrayFrom(h[r], 0), anc + [r], ids + [r], clean, shifted);
    AcyclicPairs(h, all, HashPart(h[r], 0), anc + [r], pa.ids, clean, shifted);
    StraightParts(h, r, anc + [r], ids + [r], clean, shifted, pa);
  }

  lemma WithinAll(anc: seq<nat>, all: seq<nat>, ids: seq<nat>, r: nat, ids1: seq<nat>)
    requires Within(anc, all) && ids + [r] <= ids1 <= all
    ensures Within(anc + [r], all)
  {
    assert (ids + [r])[|ids|] == r && all[|ids|] == r;
  }

  lemma {:induction false} AcyclicList(h: Heap, all: seq<nat>, vs: seq<Value>, anc: seq<nat>, ids: seq<nat>, clean: set<nat>, shifted: bool)
    requires GoodHeap(h) && AllKnown(h, vs) && GoodIds(h, ids) && Chain(h, anc) && AllBelow(h, anc, vs) && Within(anc, all) && Free(h, all)
    requires PackValues(h, vs, anc, ids).Packed? && PackValues(h, vs, anc, ids).ids <= all
    ensures StraightList(h, vs, anc, ids, clean, shifted)
    decreases Unseen(h, ids), |vs| + 1
  {
    hide GoodHeap, GoodIds, PackValue, PackValues, Unseen, OnCycle, StraightValue, Below, Chain, Free;
    if vs != [] {
      var p, q := PackList(h, vs, anc, ids);
      assert vs[0] in vs && forall v | v in vs[1..] :: v in vs;
      AcyclicValue(h, all, vs[0], anc, ids, clean, shifted);
      AcyclicList(h, all, vs[1..], anc, p.ids, clean, shifted);
      StraightListParts(h, vs, anc, ids, clean, shifted, p);
    }
  }

  lemma PairBelow(h: Heap, anc: seq<nat>, pairs: seq<Pair>)
    requires Chain(h, anc) && pairs != [] && AllBelow(h, anc, PairValues(pairs))
    ensures Below(h, anc, pairs[0].key) && Below(h, anc, pairs[0].val) && AllBelow(h, anc, PairValues(pairs[1..]))
  {
    hide Below, Chain;
    var vs := PairValues(pairs);
    assert vs == [pairs[0].key, pairs[0].val] + PairValues(pairs[1..]);
    assert vs[0] in vs && vs[1] in vs;
  }

  lemma {:induction false} AcyclicPairs(h: Heap, all: seq<nat>, pairs: seq<Pair>, anc: seq<nat>, ids: seq<nat>, clean: set<nat>,
                                        shifted: bool)
    requires GoodHeap(h) && AllKnown(h, PairValues(pairs)) && GoodIds(h, ids) && Chain(h, anc) && AllBelow(h, anc, PairValues(pairs))
    requires Within(anc, all) && Free(h, all)
    requires PackValues(h, PairValues(pairs), anc, ids).Packed? && PackValues(h, PairValues(pairs), anc, ids).ids <= all
    ensures StraightPairs(h, pairs, anc, ids, clean, shifted)
    decreases Unseen(h, ids), |pairs| + 1
  {
    hide GoodHeap, GoodIds, PackValue, PackValues, Unseen, OnCycle, StraightValue, Below, AllBelow, Chain, Free, PairValues;
    if pairs != [] {
      var p, q := PairPacked(h, pairs, anc, ids);
      PairBelow(h, anc, pairs);
      var after := After(clean, anc, ids, pairs[0].key);
      AcyclicValue(h, all, pairs[0].key, anc, ids, Beside(clean, anc), true);
      AcyclicValue(h, all, pairs[0].val, anc, p.ids, after, shifted);
      AcyclicPairs(h, all, pairs[1..], anc, q.ids, after, shifted);
      StraightPairsParts(h, pairs, anc, ids, clean, shifted, p, q);
    }
  }

  // A graph without cycles always comes back, whatever its hash keys are.
  lemma AcyclicComesBack(h: Heap, vs: seq<Value>)
    requires GoodHeap(h) && AllKnown(h, vs) && PackAll(h, vs).Ok? && |PackAll(h, vs).value| < MAX_SIZE && Acyclic(h, vs)
    ensures Straight(h, vs) && ComesBack(h, vs)
  {
    hide GoodHeap, PackValues, StraightList, Reachable, OnCycle, ComesBack;
    TablesAreReachable(h, vs);
    AcyclicList(h, PackValues(h, vs, [], []).ids, vs, [], [], {}, false);
    RoundTrip(h, vs);
  }

  // ------------------------------------------------------------ no tables as keys

  ghost predicate ScalarKeysIn(h: Heap, all: seq<nat>) {
    forall r | r in all :: r in h && ScalarKeys(h[r])
  }

  ghost predicate ReachableKeysScalar(h: Heap, vs: seq<Value>) {
    forall r | r in h && Reachable(h, vs, r) :: ScalarKeys(h[r])
  }

  // Every open table is in its place.
  predicate AllClean(anc: seq<nat>, clean: set<nat>) {
    forall i | 0 <= i < |anc| :: i in clean
  }

  lemma {:induction false} ScalarValue(h: Heap, all: seq<nat>, v: Value, anc: seq<nat>, ids: seq<nat>, clean: set<nat>)
    requires GoodHeap(h) && Known(h, v) && GoodIds(h, ids) && AllClean(anc, clean) && ScalarKeysIn(h, all)
    requires PackValue(h, v, anc, ids).Packed? && PackValue(h, v, anc, ids).ids <= all
    ensures StraightValue(h, v, anc, ids, clean, false)
    decreases Unseen(h, ids), 0
  {
    hide GoodHeap, GoodIds, PackValue, PackValues, Unseen, StraightTable, StraightList, StraightPairs, ScalarKeysIn;
    if New(v, anc, ids) {
      var r, inner := v.ref, Inside(clean, false, |anc|);
      var pa, pb := TablePacked(h, r, anc, ids);
      ScalarList(h, all, ArrayFrom(h[r], 0), anc + [r], ids + [r], inner);
      HashScalar(h, all, r, ids, pa.ids);
      ScalarPairs(h, all, HashPart(h[r], 0), anc + [r], pa.ids, inner);
      StraightParts(h, r, anc + [r], ids + [r], inner, false, pa);
      StraightNew(h, r, anc, ids, clean, false);
    }
  }

  predicate ScalarPairKeys(pairs: seq<Pair>) {
    forall e | e in pairs :: !e.key.Table?
  }

  lemma HashScalar(h: Heap, all: seq<nat>, r: nat, ids: seq<nat>, ids1: seq<nat>)
    requires ScalarKeysIn(h, all) && ids + [r] <= ids1 <= all
    ensures r in h && ScalarPairKeys(HashPart(h[r], 0))
  {
    assert (ids + [r])[|ids|] == r && all[|ids|] == r;
    HashKeys(h[r], 0);
  }

  lemma {:induction false} ScalarList(h: Heap, all: seq<nat>, vs: seq<Value>, anc: seq<nat>, ids: seq<nat>, clean: set<nat>)
    requires GoodHeap(h) && AllKnown(h, vs) && GoodIds(h, ids) && AllClean(anc, clean) && ScalarKeysIn(h, all)
    requires PackValues(h, vs, anc, ids).Packed? && PackValues(h, vs, anc, ids).ids <= all
    ensures StraightList(h, vs, anc, ids, clean, false)
    decreases Unseen(h, ids), |vs| + 1
  {
    hide GoodHeap, GoodIds, PackValue, PackValues, Unseen, StraightValue, ScalarKeysIn;
    if vs != [] {
      var p, q := PackList(h, vs, anc, ids);
      ScalarValue(h, all, vs[0], anc, ids, clean);
      ScalarList(h, all, vs[1..], anc, p.ids, clean);
      StraightListParts(h, vs, anc, ids, clean, false, p);
    }
  }

  lemma {:induction false} ScalarPairs(h: Heap, all: seq<nat>, pairs: seq<Pair>, anc: seq<nat>, ids: seq<nat>, clean: set<nat>)
    requires GoodHeap(h) && AllKnown(h, PairValues(pairs)) && GoodIds(h, ids) && AllClean(anc, clean) && ScalarKeysIn(h, all)
    requires ScalarPairKeys(pairs)
    requires PackValues(h, PairValues(pairs), anc, ids).Packed? && PackValues(h, PairValues(pairs), anc, ids).ids <= all
    ensures StraightPairs(h, pairs, anc, ids, clean, false)
    decreases Unseen(h, ids), |pairs| + 1
  {
    hide GoodHeap, GoodIds, PackValue, PackValues, Unseen, StraightTable, ScalarKeysIn, PairValues;
    if pairs != [] {
      var p, q := PairPacked(h, pairs, anc, ids);
      assert pairs[0] in pairs && forall e | e in pairs[1..] :: e in pairs;
      ScalarValue(h, all, pairs[0].val, anc, p.ids, clean);
      ScalarPairs(h, all, pairs[1..], anc, q.ids, clean);
      StraightPairsParts(h, pairs, anc, ids, clean, false, p, q);
    }
  }

  // Without tables as hash keys everything comes back, cycles and all.
  lemma ScalarKeysComeBack(h: Heap, vs: seq<Value>)
    requires GoodHeap(h) && AllKnown(h, vs) && PackAll(h, vs).Ok? && |PackAll(h, vs).value| < MAX_SIZE && ReachableKeysScalar(h, vs)
    ensures Straight(h, vs) && ComesBack(h, vs)
  {
    hide GoodHeap, PackValues, StraightList, Reachable, ComesBack;
    TablesAreReachable(h, vs);
    ScalarList(h, PackValues(h, vs, [], []).ids, vs, [], [], {});
    RoundTrip(h, vs);
  }

  // --------------------------------------------------------- a table as its own key

  lemma SelfKeyTokens(h: Heap, r: nat) returns (rest: seq<Token>)
    requires GoodHeap(h) && r in h && h[r].border == 0 && h[r].entries != [] && h[r].entries[0].key == Table(r)
    requires AllKnown(h, [Table(r)]) && PackValues(h, [Table(r)], [], []).Packed?
    ensures PackValues(h, [Table(r)], [], []).toks == [Head(1, 0), Ancestor(0)] + rest
  {
    hide Unseen, GoodHeap;
    var vs := Children(h[r]);
    assert HashPart(h[r], 0)[0] == h[r].entries[0];
    assert vs[0] == Table(r);
    var body := PackNewTable(h, r, [], []);
    var p, q := PackList(h, [Table(r)], [], []);
    assert [] + [r] == [r];
    var first, more := PackList(h, vs, [r], [r]);
    assert first == Packed([Ancestor(0)], [r]);
    rest := more.toks;
    assert q.toks == [] && p.toks + q.toks == p.toks;
    assert [Head(1, 0)] + ([Ancestor(0)] + rest) == [Head(1, 0), Ancestor(0)] + rest;
  }

  lemma SelfKeyRead(s: State, mark: bool, tail: bytes)
    requires Fresh(s) && s.depth == 0 && s.rest == EncodeHead(0, mark) + ([Combine(TYPE_REF, 0)] + tail)
    ensures UnpackOne(s) == Invalid
  {
    hide PushValue, UnpackHash, EncodeHead, OpenTable;
    ReadHead(s, 0, mark, [Combine(TYPE_REF, 0)] + tail);
    var s1 := OpenTable(s.(rest := [Combine(TYPE_REF, 0)] + tail), mark);
    assert UnpackArray(s1, 1, 0) == Ok(s1);
    KeyRefRejected(s1.(depth := 0), tail);
  }

  lemma KeyRefRejected(s: State, tail: bytes)
    requires Fresh(s) && s.depth == 0 && s.rest == [Combine(TYPE_REF, 0)] + tail
    ensures UnpackHash(s) == Invalid
  {
    ReadTag(s, TYPE_REF, 0, tail);
  }

  // The writer refers to an open table by depth while it packs a key, but the
  // reader has already left that depth: a table that is its own first hash key
  // packs, and what was packed never unpacks.
  lemma SelfKeyedTableIsRejected(h: Heap, r: nat)
    requires GoodHeap(h) && r in h && h[r].border == 0 && h[r].entries != [] && h[r].entries[0].key == Table(r)
    requires AllKnown(h, [Table(r)]) && PackAll(h, [Table(r)]).Ok?
    ensures UnpackAll(Start(PackAll(h, [Table(r)]).value)) == Invalid
  {
    hide PackValues, UnpackOne, GoodHeap, EncodeHead, Referenced;
    var rest := SelfKeyTokens(h, r);
    var toks := [Head(1, 0), Ancestor(0)] + rest;
    var M := Referenced(toks);
    assert toks[1..] == [Ancestor(0)] + rest && toks[1..][1..] == rest;
    var tail := Render(rest, M);
    assert Render(toks, M) == EncodeHead(0, 1 in M) + ([Combine(TYPE_REF, 0)] + tail);
    SelfKeyRead(Start(Render(toks, M)), 1 in M, tail);
  }

  // Such a table exists: t = { [t] = true }.
  lemma SelfKeyedTablePacks()
    ensures var h := map[0 := Tab(0, [Pair(Table(0), Bool(true))])];
      GoodHeap(h) && AllKnown(h, [Table(0)]) && PackAll(h, [Table(0)]).Ok?
  {
    hide Reachable, Path, PackAll;
    var h: Heap := map[0 := Tab(0, [Pair(Table(0), Bool(true))])];
    RefusesExactlyOthers(h, [Table(0)]);
  }

  // ------------------------------------------------------------- a new table as a key

  // t = { [{}] = true }
  function LeafKey(): Heap {
    map[0 := Tab(0, [Pair(Table(1), Bool(true))]), 1 := Tab(0, [])]
  }

  // t = { [{}] = t }
  function LeafKeyThenSelf(): Heap {
    map[0 := Tab(0, [Pair(Table(1), Table(0))]), 1 := Tab(0, [])]
  }

  // What both have in common: a table whose one hash key is a new, empty table.
  ghost predicate OneLeaf(h: Heap, v: Value) {
    GoodHeap(h) && h.Keys == {0, 1} && h[0] == Tab(0, [Pair(Table(1), v)]) && h[1] == Tab(0, []) && (v == Bool(true) || v == Table(0))
  }

  lemma LeafChildren(h: Heap, v: Value)
    requires OneLeaf(h, v)
    ensures Children(h[0]) == [Table(1), v, Nil] && Children(h[1]) == [Nil] && AllKnown(h, [Nil]) && AllKnown(h, [Table(1), v, Nil])
    ensures Known(h, v) && AllKnown(h, [Table(0)])
  {
    assert HashPart(h[0], 0) == [Pair(Table(1), v)];
    assert Flatten([Pair(Table(1), v)]) == [Table(1), v] + Flatten([]);
  }

  lemma LeafPacks(h: Heap, v: Value)
    requires OneLeaf(h, v)
    ensures GoodIds(h, [0]) && PackValue(h, Table(1), [0], [0]) == Packed([Head(2, 0), Scalar(Nil)], [0, 1])
  {
    hide PackValues, PackValue, GoodHeap, Unseen, Children;
    LeafChildren(h, v);
    var leaf := PackNewTable(h, 1, [0], [0]);
    NilPacks(h, [0] + [1], [0] + [1]);
    assert [0] + [1] == [0, 1];
  }

  lemma ValuePacks(h: Heap, v: Value)
    requires OneLeaf(h, v) && GoodIds(h, [0, 1]) && Known(h, v)
    ensures PackValue(h, v, [0], [0, 1]) == Packed([if v.Table? then Ancestor(0) else Scalar(v)], [0, 1])
  {
    hide PackValues, GoodHeap, Unseen, Children;
  }

  lemma BodyPacks(h: Heap, v: Value)
    requires OneLeaf(h, v) && AllKnown(h, [Table(1), v, Nil])
    ensures GoodIds(h, [0]) && PackValues(h, [Table(1), v, Nil], [0], [0]) ==
      Packed([Head(2, 0), Scalar(Nil), if v.Table? then Ancestor(0) else Scalar(v), Scalar(Nil)], [0, 1])
  {
    hide PackValues, PackValue, GoodHeap, Unseen, Children;
    LeafPacks(h, v);
    var p1, q1 := PackList(h, [Table(1), v, Nil], [0], [0]);
    assert [Table(1), v, Nil][1..] == [v, Nil] && [v, Nil][1..] == [Nil];
    var p2, q2 := PackList(h, [v, Nil], [0], [0, 1]);
    ValuePacks(h, v);
    NilPacks(h, [0], [0, 1]);
  }

  lemma LeafTokens(h: Heap, v: Value)
    requires OneLeaf(h, v)
    ensures AllKnown(h, [Table(0)]) && PackValues(h, [Table(0)], [], []) ==
      Packed([Head(1, 0), Head(2, 0), Scalar(Nil), if v.Table? then Ancestor(0) else Scalar(v), Scalar(Nil)], [0, 1])
  {
    hide PackValue, GoodHeap, Unseen, Children;
    LeafChildren(h, v);
    BodyPacks(h, v);
    var body := PackNewTable(h, 0, [], []);
    assert [] + [0] == [0];
    var p, q := PackList(h, [Table(0)], [], []);
    assert q.toks == [] && p.toks + q.toks == p.toks;
  }

  lemma ShortRender(t: Token, rest: seq<Token>)
    requires |EncodeToken(t, {})| == 1
    ensures |Render([t] + rest, {})| == 1 + |Render(rest, {})|
  {
    assert ([t] + rest)[1..] == rest;
  }

  // Both streams are five bytes long.
  lemma LeafStream(h: Heap, v: Value)
    requires OneLeaf(h, v)
    ensures AllKnown(h, [Table(0)]) && PackAll(h, [Table(0)]).Ok? && |PackAll(h, [Table(0)]).value| == 5
    ensures PackAll(h, [Table(0)]).value == Render(PackValues(h, [Table(0)], [], []).toks, {})
  {
    hide PackValues, OneLeaf, Render;
    LeafTokens(h, v);
    var t := if v.Table? then Ancestor(0) else Scalar(v);
    assert Referenced([Head(1, 0), Head(2, 0), Scalar(Nil), t, Scalar(Nil)]) == {};
    assert v == Bool(true) || v == Table(0) by { LeafValue(h, v); }
    assert Render([], {}) == [] by { NoTokens(); }
    ShortRender(Scalar(Nil), []);
    ShortRender(t, [Scalar(Nil)]);
    ShortRender(Scalar(Nil), [t, Scalar(Nil)]);
    ShortRender(Head(2, 0), [Scalar(Nil), t, Scalar(Nil)]);
    ShortRender(Head(1, 0), [Head(2, 0), Scalar(Nil), t, Scalar(Nil)]);
    assert [Scalar(Nil)] + [] == [Scalar(Nil)] && [t] + [Scalar(Nil)] == [t, Scalar(Nil)];
    assert [Scalar(Nil)] + [t, Scalar(Nil)] == [Scalar(Nil), t, Scalar(Nil)];
    assert [Head(2, 0)] + [Scalar(Nil), t, Scalar(Nil)] == [Head(2, 0), Scalar(Nil), t, Scalar(Nil)];
    assert [Head(1, 0)] + [Head(2, 0), Scalar(Nil), t, Scalar(Nil)] == [Head(1, 0), Head(2, 0), Scalar(Nil), t, Scalar(Nil)];
  }

  lemma NoTokens()
    ensures Render([], {}) == []
  {
  }

  lemma LeafValue(h: Heap, v: Value)
    requires OneLeaf(h, v)
    ensures v == Bool(true) || v == Table(0)
  {
  }

  // A leaf as a key comes back: t = { [{}] = true }.
  lemma LeafKeyComesBack()
    ensures var h := LeafKey();
      && GoodHeap(h) && AllKnown(h, [Table(0)]) && PackAll(h, [Table(0)]).Ok?
      && ComesBack(h, [Table(0)]) && !ReachableKeysScalar(h, [Table(0)])
  {
    hide PackValues, ComesBack, Straight, PackAll;
    var h := LeafKey();
    LeafStream(h, Bool(true));
    LeafNoCycle(h, [Table(0)]);
    AcyclicComesBack(h, [Table(0)]);
    ReachRoot(h, [Table(0)], 0);
    assert !ScalarKeys(h[0]) by { assert h[0].entries[0].key == Table(1); }
  }

  lemma LeafChain(h: Heap, path: seq<nat>)
    requires h == LeafKey() && |path| > 1 && Chain(h, path)
    ensures path[0] == 0 && path[|path| - 1] == 1
  {
    var k := |path| - 2;
    assert Edge(h, path[0], Table(path[0 + 1])) && Edge(h, path[k], Table(path[k + 1]));
  }

  lemma LeafNoCycle(h: Heap, vs: seq<Value>)
    requires h == LeafKey()
    ensures Acyclic(h, vs)
  {
    hide Reachable, Chain;
    forall r ensures !OnCycle(h, r) {
      if OnCycle(h, r) {
        var path :| |path| > 1 && Chain(h, path) && path[0] == r && path[|path| - 1] == r;
        LeafChain(h, path);
      }
    }
  }

  // The same key with the table itself for a value: what comes back is
  // t = { [u] = u }, without any error.
  lemma KeyTakesThePlace()
    ensures var h := LeafKeyThenSelf();
      GoodHeap(h) && AllKnown(h, [Table(0)]) && PackAll(h, [Table(0)]).Ok? && !Straight(h, [Table(0)]) &&
      var r := UnpackAll(Start(PackAll(h, [Table(0)]).value));
      r.Ok? && r.value.stack == [Table(1)] && r.value.heap == [map[Table(2) := Table(2)], map[]]
  {
    hide PackValues, Straight, UnpackAll, ReadAll, Render, PackAll, Images;
    var h := LeafKeyThenSelf();
    LeafTokens(h, Table(0));
    LeafStream(h, Table(0));
    var toks := [Head(1, 0), Head(2, 0), Scalar(Nil), Ancestor(0), Scalar(Nil)];
    LeafRead(toks);
    AllAgree(StartAt(toks), {});
    assert Start(PackAll(h, [Table(0)]).value) == Bytes(StartAt(toks), {});
    RoundTrip(h, [Table(0)]);
    LeafImage(h);
  }

  lemma LeafImage(h: Heap)
    requires h == LeafKeyThenSelf()
    ensures (forall x | x in [0, 1] :: x in h) && Images(h, [0, 1], 0, 2)[0] != map[Table(2) := Table(2)]
  {
    var c, t := Image([0, 1], h[0].entries), h[0];
    assert t.entries[..0] == [] && Image([0, 1], []) == map[];
    assert Rename([0, 1], Table(1)) == Table(2) && Rename([0, 1], Table(0)) == Table(1);
    assert c[Table(2)] == Table(1);
  }

  lemma LeafRead(toks: seq<Token>)
    requires toks == [Head(1, 0), Head(2, 0), Scalar(Nil), Ancestor(0), Scalar(Nil)]
    ensures var r := ReadAll(StartAt(toks), {});
      r.Ok? && r.value.stack == [Table(1)] && r.value.heap == [map[Table(2) := Table(2)], map[]]
  {
    hide ReadOne, ReadHash, ReadArray, ReadAll, Store;
    var places := StartAt(toks).ancestor;
    var m1 := Memory(toks[1..], [Table(1)], [map[]], {}, places[0 := 0], 0);
    var m2 := Memory(toks[2..], [Table(1), Table(2)], [map[], map[]], {}, places[0 := 1], 0);
    var m4 := Memory(toks[4..], [Table(1)], [map[Table(2) := Table(2)], map[]], {}, places[0 := 1], 0);
    assert toks[1..][0] == toks[1] && toks[1..][1..] == toks[2..] && toks[4..] == [Scalar(Nil)];
    OpenEmpty(StartAt(toks), m1, 1);
    OpenEmpty(m1, m2, 2);
    assert toks[2..][0] == toks[2] && toks[2..][1..] == toks[3..];
    EndOfPairs(m2);
    LeafPair(toks, m1, m2.(toks := toks[3..]), m4);
    EndOfPairs(m4);
    OnlyValue(StartAt(toks), m4.(toks := []));
  }

  lemma OnlyValue(m: Memory, t: Memory)
    requires Slots(m) && Slots(t) && m.toks != [] && ReadOne(m, {}) == Ok(t) && t.toks == []
    ensures ReadAll(m, {}) == Ok(t)
  {
    hide ReadOne;
  }

  // The pair with the leaf for a key, which is its value too.
  lemma LeafPair(toks: seq<Token>, m1: Memory, m3: Memory, m4: Memory)
    requires Slots(m1) && Slots(m3) && Slots(m4) && ReadOne(m1, {}) == Ok(m3) && |toks| == 5 && toks[3] == Ancestor(0)
    requires m3 == Memory(toks[3..], [Table(1), Table(2)], [map[], map[]], {}, m3.ancestor, 0) && m3.ancestor[0] == 1
    requires m4 == Memory(toks[4..], [Table(1)], [map[Table(2) := Table(2)], map[]], {}, m3.ancestor, 0)
    ensures ReadHash(m1, {}) == ReadHash(m4, {})
  {
    hide ReadOne, ReadHash, Store;
    assert toks[3..][0] == toks[3] && toks[3..][1..] == toks[4..];
    PlaceRead(m3.(depth := 1));
    ReadHashUnfold(m1, {});
    var u := m3.(toks := toks[4..], stack := [Table(1), Table(2), Table(2)]);
    assert m3.stack + [Table(2)] == u.stack;
    LeafStore(u, m4);
  }

  lemma LeafStore(u: Memory, t: Memory)
    requires Slots(u) && u.stack == [Table(1), Table(2), Table(2)] && u.heap == [map[], map[]]
    requires t == u.(stack := [Table(1)], heap := [map[Table(2) := Table(2)], map[]])
    ensures Store(u, 2, Table(2), Table(2)) == Ok(t)
  {
    assert u.stack[..1] == [Table(1)] && u.heap[0 := map[Table(2) := Table(2)]] == t.heap;
  }

  // A table without array part is opened, and its pairs are up next.
  lemma OpenEmpty(m: Memory, t: Memory, id: nat)
    requires Slots(m) && Slots(t) && m.toks != [] && m.toks[0] == Head(id, 0) && id == |m.heap| + 1 && m.depth < MAX_DEPTH
    requires t == Memory(m.toks[1..], m.stack + [Table(id)], m.heap + [map[]], m.marked, m.ancestor[m.depth := |m.stack|], m.depth)
    ensures ReadOne(m, {}) == ReadHash(t, {})
  {
    hide ReadHash;
    var m1 := Opened(m, false);
    assert ReadArray(m1, 1, 0, {}) == Ok(m1);
    assert m1.(depth := m1.depth - 1) == t;
  }

  lemma EndOfPairs(m: Memory)
    requires Slots(m) && m.toks != [] && m.toks[0] == Scalar(Nil) && m.stack != []
    ensures ReadHash(m, {}) == Ok(m.(toks := m.toks[1..]))
  {
    ReadHashUnfold(m, {});
    assert (m.stack + [Nil])[..|m.stack|] == m.stack;
  }

  lemma PlaceRead(m: Memory)
    requires Slots(m) && m.toks != [] && m.toks[0] == Ancestor(0) && m.depth > 0 && m.ancestor[0] < |m.stack|
    ensures ReadOne(m, {}) == Ok(m.(toks := m.toks[1..], stack := m.stack + [m.stack[m.ancestor[0]]]))
  {
  }
}
