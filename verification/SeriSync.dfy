// Whatever the reader makes of a reference by depth, it reads the same stretch of
// the stream and creates the same tables, or it leaves some table wrong for good.
module SeriSync {
  import opened Sets
  import opened SeriFormat
  import opened SeriPack
  import opened SeriUnpack
  import opened SeriTokens
  import opened SeriFrame
  import opened SeriImage
  import opened SeriStraight

  ghost predicate Setting(h: Heap, all: seq<nat>) {
    GoodHeap(h) && GoodIds(h, all) && KeysKnown(h, all)
  }

  predicate Marks(toks: seq<Token>, M: set<nat>) {
    forall t | t in toks && t.Object? :: t.id in M
  }

  // `p` is about to be read from m, and then `more`.
  ghost predicate Ahead(p: Packed, m: Memory, all: seq<nat>, M: set<nat>, more: seq<Token>) {
    p.Packed? && p.ids <= all && m.toks == p.toks + more && Marks(p.toks, M)
  }

  // What a reference to depth i would give.
  function SlotValue(m: Memory, i: nat): Value {
    if i < m.depth && i < |m.ancestor| then StackAt(m.stack, m.ancestor[i]) else Nil
  }

  // What the reader takes v for.
  function Meant(m: Memory, v: Value, anc: seq<nat>, all: seq<nat>): Value {
    if v.Table? && ByAncestor(anc, v.ref) then SlotValue(m, IndexOf(anc, v.ref)) else Rename(all, v)
  }

  // The reader is where the packer was.
  ghost predicate Synced(m: Memory, ids: seq<nat>, M: set<nat>) {
    Slots(m) && |m.heap| == |ids| && m.marked == MarkedUpTo(M, |ids|)
  }

  // The slots below the depth are as before; the others are, or were set
  // further up the stack.
  predicate Slotted(m: Memory, t: Memory) {
    && |t.ancestor| == |m.ancestor| == MAX_DEPTH
    && forall j | 0 <= j < MAX_DEPTH ::
      t.ancestor[j] == m.ancestor[j] || (j >= m.depth && t.ancestor[j] >= |m.stack|)
  }

  // From m to t: `more` is left to be read, `ws` was pushed, the tables of m
  // became `heap`, and the tables numbered up to |ids'| were created.
  ghost predicate Grew(m: Memory, t: Memory, ws: seq<Value>, heap: seq<Content>, ids': seq<nat>, more: seq<Token>,
                       M: set<nat>)
  {
    && t.toks == more && t.stack == m.stack + ws && t.depth == m.depth && Slotted(m, t)
    && |heap| == |m.heap| <= |t.heap| == |ids'| && t.heap[..|m.heap|] == heap
    && t.marked == MarkedUpTo(M, |ids'|)
  }

  // ... and a new table was opened in the slot of the current depth, or none.
  predicate Opens(m: Memory, t: Memory, opens: bool) {
    |t.ancestor| == MAX_DEPTH &&
    if opens then m.depth < MAX_DEPTH ==> t.ancestor[m.depth] >= |m.stack| else t.ancestor == m.ancestor && t.heap == m.heap
  }

  // Table q + 1 is not what it should be.
  predicate Wrong(h: Heap, all: seq<nat>, heap: seq<Content>, q: nat)
    requires q < |heap|
  {
    q >= |all| || all[q] !in h || heap[q] != Image(all, h[all[q]].entries)
  }

  // A table opened since is wrong, and closed.
  ghost predicate Spoilt(h: Heap, all: seq<nat>, heap: seq<Content>, from: nat) {
    exists q :: from <= q < |heap| && Wrong(h, all, heap, q)
  }

  lemma SpoiltOn(h: Heap, all: seq<nat>, a: seq<Content>, b: seq<Content>, from: nat, start: nat)
    requires Spoilt(h, all, a, from) && Beyond(a, b, start) && start <= from
    ensures Spoilt(h, all, b, start)
  {
    var q :| from <= q < |a| && Wrong(h, all, a, q);
    assert Wrong(h, all, b, q);
  }

  // The value was read as w, in step; or a table is spoilt.
  ghost predicate ReadsAs(h: Heap, all: seq<nat>, m: Memory, r: Result<Memory>, w: Value, opens: bool, ids': seq<nat>,
                          more: seq<Token>, M: set<nat>)
  {
    r.Ok? ==> (Grew(m, r.value, [w], m.heap, ids', more, M) && Opens(m, r.value, opens)) || Spoilt(h, all, r.value.heap, |m.heap|)
  }

  lemma MarksSplit(xs: seq<Token>, ys: seq<Token>, M: set<nat>)
    requires Marks(xs + ys, M)
    ensures Marks(xs, M) && Marks(ys, M)
  {
    assert forall t | t in xs :: t in xs + ys;
    assert forall t | t in ys :: t in xs + ys;
  }

  // Two stretches, one after the other.
  lemma AheadSplit(p: Packed, q: Packed, m: Memory, all: seq<nat>, M: set<nat>, more: seq<Token>)
    requires p.Packed? && q.Packed? && p.ids <= q.ids && Ahead(Packed(p.toks + q.toks, q.ids), m, all, M, more)
    ensures Ahead(p, m, all, M, q.toks + more) && q.ids <= all && Marks(q.toks, M)
  {
    MarksSplit(p.toks, q.toks, M);
    assert p.toks + q.toks + more == p.toks + (q.toks + more);
  }

  // ------------------------------------------------------- one value, no record

  lemma SyncScalar(h: Heap, all: seq<nat>, M: set<nat>, v: Value, anc: seq<nat>, ids: seq<nat>, m: Memory, more: seq<Token>)
    requires GoodHeap(h) && Known(h, v) && GoodIds(h, ids) && Slots(m) && |m.heap| == |ids| && m.marked == MarkedUpTo(M, |ids|)
    requires !v.Table? && Ahead(PackValue(h, v, anc, ids), m, all, M, more)
    ensures ReadOne(m, M) == Ok(m.(toks := more, stack := m.stack + [v])) && PackValue(h, v, anc, ids).ids == ids
  {
    hide GoodHeap, GoodIds, PackValues;
    assert m.toks == [Scalar(v)] + more;
  }

  lemma SyncAncestor(h: Heap, all: seq<nat>, M: set<nat>, r: nat, anc: seq<nat>, ids: seq<nat>, m: Memory, more: seq<Token>)
    requires GoodHeap(h) && r in h && GoodIds(h, ids) && Slots(m) && ByAncestor(anc, r)
    requires Ahead(PackValue(h, Table(r), anc, ids), m, all, M, more)
    ensures PackValue(h, Table(r), anc, ids).ids == ids
    ensures var i := IndexOf(anc, r);
      ReadOne(m, M) ==
        if i < m.depth then Ok(m.(toks := more, stack := m.stack + [SlotValue(m, i)])) else Invalid
  {
    hide GoodHeap, GoodIds, PackValues;
    assert m.toks == [Ancestor(IndexOf(anc, r))] + more;
  }

  lemma SyncObject(h: Heap, all: seq<nat>, M: set<nat>, r: nat, anc: seq<nat>, ids: seq<nat>, m: Memory, more: seq<Token>)
    requires GoodHeap(h) && r in h && GoodIds(h, ids) && Slots(m) && !ByAncestor(anc, r) && r in ids
    requires m.marked == MarkedUpTo(M, |ids|) && Ahead(PackValue(h, Table(r), anc, ids), m, all, M, more)
    ensures PackValue(h, Table(r), anc, ids).ids == ids
    ensures ReadOne(m, M) == Ok(m.(toks := more, stack := m.stack + [Rename(all, Table(r))]))
  {
    hide GoodHeap, GoodIds, PackValues;
    var id := IndexOf(ids, r) + 1;
    assert PackValue(h, Table(r), anc, ids).toks == [Object(id)];
    assert Object(id) in [Object(id)];
    assert m.toks == [Object(id)] + more;
    IndexInPrefix(ids, all, r);
  }

  // A value that needs no record of its own.
  lemma SyncLeaf(h: Heap, all: seq<nat>, M: set<nat>, v: Value, anc: seq<nat>, ids: seq<nat>, m: Memory, more: seq<Token>)
    requires Setting(h, all) && Known(h, v) && GoodIds(h, ids) && Synced(m, ids, M) && !New(v, anc, ids)
    requires Ahead(PackValue(h, v, anc, ids), m, all, M, more)
    ensures var r := ReadOne(m, M);
      r.Ok? ==> Grew(m, r.value, [Meant(m, v, anc, all)], m.heap, ids, more, M) && Opens(m, r.value, false) && r.value.heap == m.heap
    ensures PackValue(h, v, anc, ids).ids == ids
    ensures ReadOne(m, M).Ok? <==> !(v.Table? && ByAncestor(anc, v.ref)) || IndexOf(anc, v.ref) < m.depth
  {
    hide GoodHeap, GoodIds, PackValue, Ahead, MarkedUpTo, KeysKnown;
    match v {
      case Table(r) =>
        if ByAncestor(anc, r) {
          SyncAncestor(h, all, M, r, anc, ids, m, more);
        } else {
          SyncObject(h, all, M, r, anc, ids, m, more);
        }
      case _ => SyncScalar(h, all, M, v, anc, ids, m, more);
    }
  }

  // ------------------------------------------------------------------- in step

  lemma HeapOf(m: Memory, ids: seq<nat>, M: set<nat>)
    requires Synced(m, ids, M)
    ensures |m.heap| == |ids| && Slots(m)
  {
  }

  // The stack is as before, the tables are more.
  lemma SyncedOn(m: Memory, t: Memory, ids: seq<nat>, heap: seq<Content>, ids': seq<nat>, more: seq<Token>, M: set<nat>)
    requires Synced(m, ids, M) && Grew(m, t, [], heap, ids', more, M)
    ensures Synced(t, ids', M) && t.stack == m.stack
  {
    assert m.stack + [] == m.stack;
  }

  // So are the references by depth.
  lemma SameSlots(m: Memory, t: Memory, i: nat)
    requires Slotted(m, t) && t.stack == m.stack && t.depth == m.depth
    ensures SlotValue(t, i) == SlotValue(m, i)
  {
  }

  lemma SameMeant(m: Memory, t: Memory, v: Value, anc: seq<nat>, all: seq<nat>)
    requires Slotted(m, t) && t.stack == m.stack && t.depth == m.depth
    ensures Meant(t, v, anc, all) == Meant(m, v, anc, all)
  {
    if v.Table? && ByAncestor(anc, v.ref) { SameSlots(m, t, IndexOf(anc, v.ref)); }
  }

  lemma GrewOn(m: Memory, t: Memory, u: Memory, k: nat, c1: Content, c2: Content, ids1: seq<nat>, ids2: seq<nat>,
               more1: seq<Token>, more2: seq<Token>, M: set<nat>)
    requires 0 < k <= |m.heap| && Grew(m, t, [], m.heap[k - 1 := c1], ids1, more1, M)
    requires Grew(t, u, [], t.heap[k - 1 := c2], ids2, more2, M)
    ensures Grew(m, u, [], m.heap[k - 1 := c2], ids2, more2, M)
  {
    assert t.stack == m.stack;
    var n := |m.heap|;
    assert u.heap[..n] == (t.heap[k - 1 := c2])[..n] by { assert u.heap[..n] == u.heap[..|t.heap|][..n]; }
    assert (t.heap[k - 1 := c2])[..n] == t.heap[..n][k - 1 := c2];
    assert m.heap[k - 1 := c1][k - 1 := c2] == m.heap[k - 1 := c2];
  }

  // ------------------------------------------------------------ the array part

  function ArrayOf(m: Memory, anc: seq<nat>, all: seq<nat>, c: Content, i: nat, vs: seq<Value>): Content
    requires i + |vs| <= MAX_SIZE
    decreases |vs|
  {
    if vs == [] then c else ArrayOf(m, anc, all, Assign(c, Int(i), Meant(m, vs[0], anc, all)), i + 1, vs[1..])
  }

  lemma {:induction false} SameArray(m: Memory, t: Memory, anc: seq<nat>, all: seq<nat>, c: Content, i: nat, vs: seq<Value>)
    requires i + |vs| <= MAX_SIZE && Slotted(m, t) && t.stack == m.stack && t.depth == m.depth
    ensures ArrayOf(t, anc, all, c, i, vs) == ArrayOf(m, anc, all, c, i, vs)
    decreases |vs|
  {
    hide Meant;
    if vs != [] {
      SameMeant(m, t, vs[0], anc, all);
      SameArray(m, t, anc, all, Assign(c, Int(i), Meant(m, vs[0], anc, all)), i + 1, vs[1..]);
    }
  }

  // The element is stored, and the stack is as before it was read.
  lemma StoreElement(m: Memory, t: Memory, k: nat, i: size, w: Value, ids1: seq<nat>, more1: seq<Token>, M: set<nat>)
    returns (u: Memory)
    requires OnTop(m, k) && Slots(t) && Grew(m, t, [w], m.heap, ids1, more1, M)
    ensures |t.stack| >= 2 && Store(t, 1, Int(i), t.stack[|t.stack| - 1]) == Ok(u)
    ensures u == t.(stack := m.stack, heap := t.heap[k - 1 := Assign(m.heap[k - 1], Int(i), w)])
    ensures Grew(m, u, [], m.heap[k - 1 := Assign(m.heap[k - 1], Int(i), w)], ids1, more1, M) && OnTop(u, k)
    ensures u.heap[k - 1] == Assign(m.heap[k - 1], Int(i), w)
  {
    hide Assign;
    var c := Assign(m.heap[k - 1], Int(i), w);
    assert t.stack[..|t.stack| - 1] == m.stack && t.stack[|t.stack| - 1] == w && t.stack[|t.stack| - 2] == Table(k);
    assert t.heap[k - 1] == t.heap[..|m.heap|][k - 1] == m.heap[k - 1];
    u := t.(stack := m.stack, heap := t.heap[k - 1 := c]);
    assert u.heap[..|m.heap|] == t.heap[..|m.heap|][k - 1 := c];
    assert m.stack + [] == m.stack;
  }

  lemma {:induction false} ArrayKeys(m: Memory, anc: seq<nat>, all: seq<nat>, c: Content, i: nat, vs: seq<Value>, x: Value)
    requires i + |vs| <= MAX_SIZE && x in ArrayOf(m, anc, all, c, i, vs)
    ensures x in c || (x.Int? && i <= x.i < i + |vs|)
    ensures (forall y | y in c :: c[y] != Nil) ==> ArrayOf(m, anc, all, c, i, vs)[x] != Nil
    decreases |vs|
  {
    hide Meant;
    if vs != [] { ArrayKeys(m, anc, all, Assign(c, Int(i), Meant(m, vs[0], anc, all)), i + 1, vs[1..], x); }
  }

  // Reading the array part came to c, in step; or a table is spoilt.
  ghost predicate ArrayRead(h: Heap, all: seq<nat>, m: Memory, t: Memory, k: nat, c: Content, ids': seq<nat>, more: seq<Token>,
                            M: set<nat>)
    requires 0 < k <= |m.heap| <= |t.heap|
  {
    || (Grew(m, t, [], m.heap[k - 1 := c], ids', more, M) && t.heap[k - 1] == c)
    || Spoilt(h, all, t.heap, |m.heap|)
  }

  // The stretches of the first value of a list and of the rest.
  lemma ListStretch(h: Heap, all: seq<nat>, M: set<nat>, vs: seq<Value>, anc: seq<nat>, ids: seq<nat>, m: Memory,
                    more: seq<Token>)
    returns (pv: Packed, pr: Packed)
    requires GoodHeap(h) && AllKnown(h, vs) && GoodIds(h, ids) && vs != []
    requires Ahead(PackValues(h, vs, anc, ids), m, all, M, more)
    ensures Known(h, vs[0]) && AllKnown(h, vs[1..])
    ensures pv == PackValue(h, vs[0], anc, ids) && pv.Packed? && GoodIds(h, pv.ids) && Unseen(h, pv.ids) <= Unseen(h, ids)
    ensures pr == PackValues(h, vs[1..], anc, pv.ids) && pr.Packed? && PackValues(h, vs, anc, ids).ids == pr.ids
    ensures ids <= pv.ids <= pr.ids <= all && Marks(pr.toks, M)
    ensures Ahead(pv, m, all, M, pr.toks + more)
  {
    hide GoodHeap, GoodIds, PackValue, PackValues, Unseen;
    pv, pr := PackList(h, vs, anc, ids);
    BothPacked(pv, pr, h, vs, anc, ids, m, all, M, more);
    AheadSplit(pv, pr, m, all, M, more);
  }

  lemma BothPacked(pv: Packed, pr: Packed, h: Heap, vs: seq<Value>, anc: seq<nat>, ids: seq<nat>, m: Memory, all: seq<nat>,
                   M: set<nat>, more: seq<Token>)
    requires GoodHeap(h) && AllKnown(h, vs) && GoodIds(h, ids) && Ahead(PackValues(h, vs, anc, ids), m, all, M, more)
    requires PackValues(h, vs, anc, ids) ==
      if pv.Refused? || pr.Refused? then Refused else Packed(pv.toks + pr.toks, pr.ids)
    ensures pv.Packed? && pr.Packed? && Ahead(Packed(pv.toks + pr.toks, pr.ids), m, all, M, more)
  {
    hide PackValues;
  }

  // ------------------------------------------------------------- the hash part

  predicate IsKey(m: Memory, pairs: seq<Pair>, anc: seq<nat>, all: seq<nat>, x: Value) {
    exists e :: e in pairs && Meant(m, e.key, anc, all) == x
  }

  // The pairs changed nothing but what is under the keys read for them.
  ghost predicate OnlyKeys(c: Content, d: Content, m: Memory, pairs: seq<Pair>, anc: seq<nat>, all: seq<nat>) {
    forall x | !IsKey(m, pairs, anc, all, x) :: (x in d <==> x in c) && Lookup(d, x) == Lookup(c, x)
  }

  lemma OnlyKeysOn(c: Content, d: Content, m: Memory, t: Memory, pairs: seq<Pair>, anc: seq<nat>, all: seq<nat>, val: Value)
    requires pairs != [] && Slotted(m, t) && t.stack == m.stack && t.depth == m.depth
    requires OnlyKeys(Assign(c, Meant(m, pairs[0].key, anc, all), val), d, t, pairs[1..], anc, all)
    ensures OnlyKeys(c, d, m, pairs, anc, all)
  {
    hide Meant;
    var key := Meant(m, pairs[0].key, anc, all);
    forall x | !IsKey(m, pairs, anc, all, x) ensures (x in d <==> x in c) && Lookup(d, x) == Lookup(c, x) {
      assert pairs[0] in pairs;
      forall e | e in pairs[1..] ensures Meant(t, e.key, anc, all) != x {
        assert e in pairs;
        SameMeant(m, t, e.key, anc, all);
      }
      assert !IsKey(t, pairs[1..], anc, all, x);
    }
  }

  // The keys outside the array part.
  ghost function Outside(c: Content, n: nat): set<Value> {
    set x | x in c && !(x.Int? && 0 < x.i <= n)
  }

  // Fewer keys came in than there were pairs.
  ghost predicate Few(c: Content, d: Content, n: nat, pairs: nat) {
    |Outside(d, n)| < |Outside(c, n)| + pairs
  }

  lemma AssignOutside(c: Content, key: Value, val: Value, n: nat)
    ensures |Outside(Assign(c, key, val), n)| <= |Outside(c, n)| + 1
  {
    SubsetSize(Outside(Assign(c, key, val), n), Outside(c, n) + {key});
  }

  lemma ArrayOutside(m: Memory, anc: seq<nat>, all: seq<nat>, vs: seq<Value>)
    requires 1 + |vs| <= MAX_SIZE
    ensures Outside(ArrayOf(m, anc, all, map[], 1, vs), |vs|) == {}
  {
    hide ArrayOf;
    forall x | x in ArrayOf(m, anc, all, map[], 1, vs) ensures x.Int? && 0 < x.i <= |vs| {
      ArrayKeys(m, anc, all, map[], 1, vs, x);
    }
  }

  predicate DistinctKeys(pairs: seq<Pair>) {
    forall i, j | 0 <= i < j < |pairs| :: pairs[i].key != pairs[j].key
  }

  predicate PairsInStream(all: seq<nat>, pairs: seq<Pair>) {
    forall e | e in pairs :: InStream(all, e.key)
  }

  lemma HashDistinct(t: Tab, from: nat, all: seq<nat>)
    requires GoodTab(t) && KeysInStream(all, t) && from <= |t.entries|
    ensures DistinctKeys(HashPart(t, from)) && PairsInStream(all, HashPart(t, from))
    ensures forall e | e in HashPart(t, from) :: exists i :: from <= i < |t.entries| && t.entries[i] == e
    decreases |t.entries| - from
  {
    if from < |t.entries| {
      HashDistinct(t, from + 1, all);
      assert t.entries[from] == t.entries[from];
      var e, rest := t.entries[from], HashPart(t, from + 1);
      forall i | 0 <= i < |rest| ensures rest[i].key != e.key { assert rest[i] in rest; }
      assert HashPart(t, from) == if InArray(t, e.key) then rest else [e] + rest;
    }
  }

  ghost function Names(all: seq<nat>, pairs: seq<Pair>): set<Value> {
    set e | e in pairs :: Rename(all, e.key)
  }

  lemma FirstNameDiffers(all: seq<nat>, pairs: seq<Pair>)
    requires pairs != [] && DistinctKeys(pairs) && PairsInStream(all, pairs)
    ensures Rename(all, pairs[0].key) !in Names(all, pairs[1..])
    ensures Names(all, pairs) == Names(all, pairs[1..]) + {Rename(all, pairs[0].key)}
    ensures DistinctKeys(pairs[1..]) && PairsInStream(all, pairs[1..])
  {
    hide Rename, InStream;
    var e, rest := pairs[0], pairs[1..];
    assert e in pairs && pairs == [e] + rest;
    forall f | f in rest ensures Rename(all, f.key) != Rename(all, e.key) && f in pairs {
      var i :| 0 <= i < |rest| && rest[i] == f;
      assert pairs[i + 1] == f;
      if Rename(all, f.key) == Rename(all, e.key) { RenameInjective(all, f.key, e.key); }
    }
  }

  lemma {:induction false} NamesDiffer(all: seq<nat>, pairs: seq<Pair>)
    requires DistinctKeys(pairs) && PairsInStream(all, pairs)
    ensures |Names(all, pairs)| == |pairs|
  {
    hide Rename, DistinctKeys, PairsInStream;
    if pairs == [] {
      assert Names(all, pairs) == {};
    } else {
      FirstNameDiffers(all, pairs);
      NamesDiffer(all, pairs[1..]);
    }
  }

  // With too few keys a table is no image.
  lemma ImageOutside(all: seq<nat>, t: Tab)
    requires GoodTab(t) && KeysInStream(all, t)
    ensures |Outside(Image(all, t.entries), t.border)| >= |HashPart(t, 0)|
  {
    hide Image;
    var pairs := HashPart(t, 0);
    HashDistinct(t, 0, all);
    NamesDiffer(all, pairs);
    HashKeys(t, 0);
    forall e | e in pairs ensures Rename(all, e.key) in Outside(Image(all, t.entries), t.border) {
      var i :| 0 <= i < |t.entries| && t.entries[i] == e;
      ImageHas(all, t.entries, i);
    }
    SubsetSize(Names(all, pairs), Outside(Image(all, t.entries), t.border));
  }

  // Reading the hash part stored the pairs, in step; or a table is spoilt; or a
  // key was read as nil and ended the table.
  ghost predicate HashRead(h: Heap, all: seq<nat>, m: Memory, t: Memory, k: nat, n: nat, pairs: seq<Pair>, anc: seq<nat>,
                           ids': seq<nat>, more: seq<Token>, M: set<nat>)
    requires 0 < k <= |m.heap| <= |t.heap|
  {
    || (Grew(m, t, [], m.heap[k - 1 := t.heap[k - 1]], ids', more, M) &&
        OnlyKeys(m.heap[k - 1], t.heap[k - 1], m, pairs, anc, all))
    || Spoilt(h, all, t.heap, |m.heap|)
    || (Few(m.heap[k - 1], t.heap[k - 1], n, |pairs|) && IsKey(m, pairs, anc, all, Nil))
  }

  lemma ValueSynced(m: Memory, t: Memory, ids: seq<nat>, ids1: seq<nat>, key: Value, more: seq<Token>, M: set<nat>)
    requires Synced(m, ids, M) && Grew(m, t, [key], m.heap, ids1, more, M)
    ensures Synced(Deeper(t), ids1, M)
  {
  }

  // The pair is stored, and the stack is as before it was read.
  lemma StorePair(m: Memory, t: Memory, u: Memory, k: nat, key: Value, val: Value, ids1: seq<nat>, ids2: seq<nat>,
                  more1: seq<Token>, more2: seq<Token>, M: set<nat>)
    returns (x: Memory)
    requires OnTop(m, k) && Grew(m, t, [key], m.heap, ids1, more1, M) && Grew(Deeper(t), u, [val], t.heap, ids2, more2, M)
    ensures Slots(u) && |u.stack| >= 3 && u.depth > 0 && u.stack[|u.stack| - 2] == key && u.stack[|u.stack| - 1] == val
    ensures Store(u.(depth := u.depth - 1), 2, key, val) == Ok(x)
    ensures Grew(m, x, [], m.heap[k - 1 := Assign(m.heap[k - 1], key, val)], ids2, more2, M) && OnTop(x, k)
    ensures x == u.(depth := m.depth, stack := m.stack, heap := u.heap[k - 1 := Assign(m.heap[k - 1], key, val)])
    ensures x.heap[k - 1] == Assign(m.heap[k - 1], key, val)
  {
    hide Assign;
    var n, c := |m.heap|, Assign(m.heap[k - 1], key, val);
    assert u.stack == m.stack + [key, val];
    assert u.stack[..|u.stack| - 2] == m.stack && u.stack[|u.stack| - 3] == Table(k);
    assert u.heap[..n] == u.heap[..|t.heap|][..n] == m.heap;
    assert u.heap[k - 1] == u.heap[..n][k - 1] == m.heap[k - 1];
    x := u.(depth := m.depth, stack := m.stack, heap := u.heap[k - 1 := c]);
    assert x.heap[..n] == u.heap[..n][k - 1 := c];
    assert m.stack + [] == m.stack;
  }

  // The end of the hash part.
  lemma SyncEnd(h: Heap, all: seq<nat>, M: set<nat>, anc: seq<nat>, ids: seq<nat>, m: Memory, k: nat, more: seq<Token>)
    requires Setting(h, all) && GoodIds(h, ids) && Synced(m, ids, M) && OnTop(m, k) && AllKnown(h, [Nil])
    requires Ahead(PackValues(h, [Nil], anc, ids), m, all, M, more)
    ensures PackValues(h, [Nil], anc, ids).ids == ids
    ensures ReadHash(m, M) == Ok(m.(toks := more)) && Grew(m, m.(toks := more), [], m.heap[k - 1 := m.heap[k - 1]], ids, more, M)
  {
    hide GoodHeap, GoodIds, PackValues, PackValue, ReadOne, ReadHash, Ahead, KeysKnown, Grew, MarkedUpTo;
    NilPacks(h, anc, ids);
    NilPacksOne(h, anc, ids);
    SyncScalar(h, all, M, Nil, anc, ids, m, more);
    NilEnds(m, m.(toks := more, stack := m.stack + [Nil]), M);
    NothingGrew(m, k, ids, more, M);
  }

  lemma NilEnds(m: Memory, t: Memory, M: set<nat>)
    requires Slots(m) && m.stack != [] && ReadOne(m, M) == Ok(t) && t.stack == m.stack + [Nil]
    ensures ReadHash(m, M) == Ok(t.(stack := m.stack))
  {
    hide ReadOne, ReadHash;
    ReadHashUnfold(m, M);
    assert t.stack[..|t.stack| - 1] == m.stack;
  }

  lemma NothingGrew(m: Memory, k: nat, ids: seq<nat>, more: seq<Token>, M: set<nat>)
    requires Synced(m, ids, M) && 0 < k <= |m.heap|
    ensures Grew(m, m.(toks := more), [], m.heap[k - 1 := m.heap[k - 1]], ids, more, M)
  {
    assert m.stack + [] == m.stack;
  }

  lemma NilPacksOne(h: Heap, anc: seq<nat>, ids: seq<nat>)
    requires GoodHeap(h) && Known(h, Nil) && GoodIds(h, ids)
    ensures PackValue(h, Nil, anc, ids) == Packed([Scalar(Nil)], ids)
  {
  }

  // The stretches of a pair's value and of the pairs after it.
  lemma PairRest(h: Heap, all: seq<nat>, M: set<nat>, pairs: seq<Pair>, anc: seq<nat>, ids: seq<nat>, q: Packed)
    returns (p2: Packed, p3: Packed)
    requires GoodHeap(h) && pairs != [] && AllKnown(h, PairValues(pairs)[1..]) && GoodIds(h, ids)
    requires q == PackValues(h, PairValues(pairs)[1..], anc, ids) && q.Packed? && q.ids <= all && Marks(q.toks, M)
    ensures Known(h, pairs[0].val) && AllKnown(h, PairValues(pairs[1..]))
    ensures p2 == PackValue(h, pairs[0].val, anc, ids) && p2.Packed? && GoodIds(h, p2.ids)
    ensures Unseen(h, p2.ids) <= Unseen(h, ids) && ids <= p2.ids
    ensures p3 == PackValues(h, PairValues(pairs[1..]), anc, p2.ids) && p3.Packed?
    ensures q == Packed(p2.toks + p3.toks, p3.ids) && p2.ids <= p3.ids && Marks(p2.toks, M) && Marks(p3.toks, M)
  {
    hide GoodHeap, GoodIds, PackValue, PackValues, Unseen, PairValues;
    PairStretch(pairs);
    p2, p3 := PackList(h, PairValues(pairs)[1..], anc, ids);
    MarksSplit(p2.toks, p3.toks, M);
  }

  // After the key, the reader is in step one level down.
  lemma KeyRead(m: Memory, t: Memory, ids: seq<nat>, ids1: seq<nat>, key: Value, p2: Packed, p3: Packed, all: seq<nat>,
                more: seq<Token>, M: set<nat>)
    requires Synced(m, ids, M) && p2.Packed? && p3.Packed? && p2.ids <= all && Marks(p2.toks, M)
    requires Grew(m, t, [key], m.heap, ids1, p2.toks + (p3.toks + more), M)
    ensures Synced(Deeper(t), ids1, M) && Ahead(p2, Deeper(t), all, M, p3.toks + more)
    ensures |t.stack| == |m.stack| + 1 && t.stack[|t.stack| - 1] == key && Slots(t) && Slots(Deeper(t))
  {
    ValueSynced(m, t, ids, ids1, key, p2.toks + (p3.toks + more), M);
  }

  // After the pair, it is in step where it was before.
  lemma PairOn(m: Memory, x: Memory, k: nat, ids: seq<nat>, ids2: seq<nat>, p3: Packed, all: seq<nat>, M: set<nat>,
               more: seq<Token>, c: Content)
    requires Synced(m, ids, M) && OnTop(m, k) && p3.Packed? && p3.ids <= all && Marks(p3.toks, M)
    requires Grew(m, x, [], m.heap[k - 1 := c], ids2, p3.toks + more, M)
    ensures Synced(x, ids2, M) && Ahead(p3, x, all, M, more) && Slots(x)
    ensures Slotted(m, x) && x.stack == m.stack && x.depth == m.depth
  {
    SyncedOn(m, x, ids, m.heap[k - 1 := c], ids2, p3.toks + more, M);
  }

  lemma SameStack(m: Memory, x: Memory, heap: seq<Content>, ids': seq<nat>, more: seq<Token>, M: set<nat>)
    requires Grew(m, x, [], heap, ids', more, M)
    ensures Slotted(m, x) && x.stack == m.stack && x.depth == m.depth
  {
    assert m.stack + [] == m.stack;
  }

  // -------------------------------------------------------------- the induction

  lemma {:induction false} SyncArray(h: Heap, all: seq<nat>, M: set<nat>, vs: seq<Value>, anc: seq<nat>, ids: seq<nat>,
                                     m: Memory, i: nat, k: nat, more: seq<Token>)
    requires Setting(h, all) && AllKnown(h, vs) && GoodIds(h, ids) && Synced(m, ids, M) && OnTop(m, k)
    requires Ahead(PackValues(h, vs, anc, ids), m, all, M, more) && 0 < i && i + |vs| <= MAX_SIZE
    ensures var r := ReadArray(m, i, i + |vs| - 1, M);
      r.Ok? ==>
        && Touches(m, r.value, k)
        && ArrayRead(h, all, m, r.value, k, ArrayOf(m, anc, all, m.heap[k - 1], i, vs), PackValues(h, vs, anc, ids).ids, more, M)
    decreases Unseen(h, ids), |vs| + 1, 2
  {
    if vs == [] {
      assert m.toks == more && m.stack + [] == m.stack;
    } else {
      SyncElement(h, all, M, vs, anc, ids, m, i, k, more);
    }
  }

  lemma {:induction false} SyncElement(h: Heap, all: seq<nat>, M: set<nat>, vs: seq<Value>, anc: seq<nat>, ids: seq<nat>,
                                       m: Memory, i: nat, k: nat, more: seq<Token>)
    requires Setting(h, all) && AllKnown(h, vs) && GoodIds(h, ids) && Synced(m, ids, M) && OnTop(m, k) && vs != []
    requires Ahead(PackValues(h, vs, anc, ids), m, all, M, more) && 0 < i && i + |vs| <= MAX_SIZE
    ensures var r := ReadArray(m, i, i + |vs| - 1, M);
      r.Ok? ==>
        && Touches(m, r.value, k)
        && ArrayRead(h, all, m, r.value, k, ArrayOf(m, anc, all, m.heap[k - 1], i, vs), PackValues(h, vs, anc, ids).ids, more, M)
    decreases Unseen(h, ids), |vs| + 1, 1
  {
    hide GoodHeap, GoodIds, PackValue, PackValues, Unseen, ReadOne, ReadArray, Grew, Meant, Slotted, Assign, Synced, Spoilt, Opens, New,
         KeysKnown, Touches;
    var pv, pr := ListStretch(h, all, M, vs, anc, ids, m, more);
    HeapOf(m, ids, M);
    ReadArrayUnfold(m, i, i + |vs| - 1, M);
    SyncValue(h, all, M, vs[0], anc, ids, m, pr.toks + more);
    var r := ReadArray(m, i, i + |vs| - 1, M);
    if r.Ok? {
      FrameArray(m, i, i + |vs| - 1, k, M);
      var t, w := ReadOne(m, M).value, Meant(m, vs[0], anc, all);
      if Spoilt(h, all, t.heap, |m.heap|) {
        ArrayBeyond(m, i, i + |vs| - 1, k, M);
        SpoiltOn(h, all, t.heap, r.value.heap, |m.heap|, |m.heap|);
      } else {
        var u := StoreElement(m, t, k, i, w, pv.ids, pr.toks + more, M);
        ElementOn(m, u, k, w, i, ids, pv.ids, pr, all, M, more);
        SyncArray(h, all, M, vs[1..], anc, pv.ids, u, i + 1, k, more);
        SameArray(m, u, anc, all, u.heap[k - 1], i + 1, vs[1..]);
        if Spoilt(h, all, r.value.heap, |u.heap|) {
          SpoiltOn(h, all, r.value.heap, r.value.heap, |u.heap|, |m.heap|);
        } else {
          GrewOn(m, u, r.value, k, u.heap[k - 1], r.value.heap[k - 1], pv.ids, pr.ids, pr.toks + more, more, M);
        }
      }
    }
  }

  lemma ElementOn(m: Memory, u: Memory, k: nat, w: Value, i: size, ids: seq<nat>, ids1: seq<nat>, pr: Packed, all: seq<nat>,
                  M: set<nat>, more: seq<Token>)
    requires Synced(m, ids, M) && OnTop(m, k) && pr.Packed? && pr.ids <= all && Marks(pr.toks, M)
    requires Grew(m, u, [], m.heap[k - 1 := Assign(m.heap[k - 1], Int(i), w)], ids1, pr.toks + more, M)
    ensures Synced(u, ids1, M) && Slotted(m, u) && u.stack == m.stack && u.depth == m.depth && Ahead(pr, u, all, M, more)
    ensures |u.heap| >= |m.heap|
  {
    hide Assign;
    SyncedOn(m, u, ids, m.heap[k - 1 := Assign(m.heap[k - 1], Int(i), w)], ids1, pr.toks + more, M);
  }

  lemma {:induction false} SyncHash(h: Heap, all: seq<nat>, M: set<nat>, pairs: seq<Pair>, anc: seq<nat>, ids: seq<nat>,
                                    m: Memory, k: nat, n: nat, more: seq<Token>)
    requires Setting(h, all) && AllKnown(h, PairValues(pairs)) && GoodIds(h, ids)
    requires Synced(m, ids, M) && OnTop(m, k)
    requires Ahead(PackValues(h, PairValues(pairs), anc, ids), m, all, M, more)
    ensures var r := ReadHash(m, M);
      r.Ok? ==>
        && Touches(m, r.value, k)
        && HashRead(h, all, m, r.value, k, n, pairs, anc, PackValues(h, PairValues(pairs), anc, ids).ids, more, M)
    decreases Unseen(h, ids), |pairs| + 1, 2
  {
    if pairs == [] {
      hide ReadHash, PackValues, GoodHeap, GoodIds, KeysKnown;
      assert PairValues(pairs) == [Nil];
      SyncEnd(h, all, M, anc, ids, m, k, more);
    } else {
      SyncPair(h, all, M, pairs, anc, ids, m, k, n, more);
    }
  }

  // One pair read and stored: the loop goes on from x.
  lemma {:induction false} OnePair(h: Heap, all: seq<nat>, M: set<nat>, pairs: seq<Pair>, anc: seq<nat>, ids: seq<nat>,
                                   m: Memory, k: nat, more: seq<Token>)
    returns (p1: Packed, p2: Packed, p3: Packed, x: Memory)
    requires Setting(h, all) && AllKnown(h, PairValues(pairs)) && GoodIds(h, ids) && pairs != []
    requires Synced(m, ids, M) && OnTop(m, k)
    requires Ahead(PackValues(h, PairValues(pairs), anc, ids), m, all, M, more)
    ensures Known(h, pairs[0].key) && Known(h, pairs[0].val) && AllKnown(h, PairValues(pairs[1..]))
    ensures p1 == PackValue(h, pairs[0].key, anc, ids) && p1.Packed? && GoodIds(h, p1.ids)
    ensures p2 == PackValue(h, pairs[0].val, anc, p1.ids) && p2.Packed? && GoodIds(h, p2.ids)
    ensures p3 == PackValues(h, PairValues(pairs[1..]), anc, p2.ids) && p3.Packed?
    ensures p3.ids == PackValues(h, PairValues(pairs), anc, ids).ids && ids <= p1.ids <= p2.ids <= p3.ids <= all
    ensures Unseen(h, p2.ids) <= Unseen(h, p1.ids) <= Unseen(h, ids)
    ensures Ahead(p1, m, all, M, p2.toks + (p3.toks + more)) && Marks(p3.toks, M) && Slots(m)
    ensures ReadsAs(h, all, m, ReadOne(m, M), Meant(m, pairs[0].key, anc, all), New(pairs[0].key, anc, ids), p1.ids,
                    p2.toks + (p3.toks + more), M)
    ensures ReadOne(m, M).Invalid? ==> ReadHash(m, M).Invalid?
    ensures ReadOne(m, M).Ok? && !Spoilt(h, all, ReadOne(m, M).value.heap, |m.heap|) ==>
      var t0, key := ReadOne(m, M).value, Meant(m, pairs[0].key, anc, all);
      var t := Deeper(t0);
      && Synced(t, p1.ids, M) && Ahead(p2, t, all, M, p3.toks + more) && t0.stack != [] && t0.stack[|t0.stack| - 1] == key
      && (key == Nil ==> ReadHash(m, M) == Ok(t0.(stack := m.stack)) && t0.heap[..|m.heap|] == m.heap)
      && (key != Nil ==>
        && ReadsAs(h, all, t, ReadOne(t, M), Meant(t, pairs[0].val, anc, all), New(pairs[0].val, anc, p1.ids), p2.ids, p3.toks + more, M)
        && (ReadOne(t, M).Invalid? ==> ReadHash(m, M).Invalid?)
        && (ReadOne(t, M).Ok? && !Spoilt(h, all, ReadOne(t, M).value.heap, |t.heap|) ==>
            && OnePairDone(m, t, x, M, k, key, Meant(t, pairs[0].val, anc, all), p2.ids, p3, all, more)))
    decreases Unseen(h, ids), |pairs| + 1, 0
  {
    hide GoodHeap, GoodIds, PackValue, PackValues, Unseen, ReadOne, ReadHash, Grew, Meant, Assign, Synced, PairValues, Slotted,
         Opens, New, Spoilt, KeysKnown;
    var e := pairs[0];
    assert e in pairs;
    PairStretch(pairs);
    var q: Packed;
    p1, q := ListStretch(h, all, M, PairValues(pairs), anc, ids, m, more);
    x := m;
    HeapOf(m, ids, M);
    p2, p3 := PairRest(h, all, M, pairs, anc, p1.ids, q);
    assert q.toks + more == p2.toks + (p3.toks + more);
    ReadHashUnfold(m, M);
    SyncValue(h, all, M, e.key, anc, ids, m, q.toks + more);
    if ReadOne(m, M).Ok? && !Spoilt(h, all, ReadOne(m, M).value.heap, |m.heap|) {
      var t0, key := ReadOne(m, M).value, Meant(m, e.key, anc, all);
      KeyRead(m, t0, ids, p1.ids, key, p2, p3, all, more, M);
      var t := Deeper(t0);
      if key == Nil {
        KeyEnds(m, t0, key, p1.ids, q.toks + more, M);
      } else {
        SyncValue(h, all, M, e.val, anc, p1.ids, t, p3.toks + more);
        if ReadOne(t, M).Ok? && !Spoilt(h, all, ReadOne(t, M).value.heap, |t.heap|) {
          var u, val := ReadOne(t, M).value, Meant(t, e.val, anc, all);
          x := StorePair(m, t0, u, k, key, val, p1.ids, p2.ids, q.toks + more, p3.toks + more, M);
          PairOn(m, x, k, ids, p2.ids, p3, all, M, more, Assign(m.heap[k - 1], key, val));
        }
      }
    }
  }

  lemma KeyEnds(m: Memory, t: Memory, key: Value, ids1: seq<nat>, more: seq<Token>, M: set<nat>)
    requires Grew(m, t, [key], m.heap, ids1, more, M)
    ensures |t.stack| > 0 && t.stack[..|t.stack| - 1] == m.stack && t.heap[..|m.heap|] == m.heap
  {
  }

  // The pair is in table k, and the loop goes on in step.
  ghost predicate OnePairDone(m: Memory, t: Memory, x: Memory, M: set<nat>, k: nat, key: Value, val: Value, ids2: seq<nat>, p3: Packed,
                              all: seq<nat>, more: seq<Token>)
    requires Slots(m) && Slots(t) && ReadOne(t, M).Ok? && p3.Packed?
  {
    var u := ReadOne(t, M).value;
    && Slots(x) && ReadHash(m, M) == ReadHash(x, M) && OnTop(x, k) && k <= |m.heap| && x.heap[k - 1] == Assign(m.heap[k - 1], key, val)
    && x.ancestor == u.ancestor && |x.heap| == |u.heap| && x.heap == u.heap[k - 1 := x.heap[k - 1]]
    && Grew(m, x, [], m.heap[k - 1 := x.heap[k - 1]], ids2, p3.toks + more, M)
    && Synced(x, ids2, M) && Ahead(p3, x, all, M, more)
  }

  lemma GrewMore(m: Memory, t: Memory, heap: seq<Content>, ids': seq<nat>, more: seq<Token>, M: set<nat>)
    requires Grew(m, t, [], heap, ids', more, M)
    ensures |m.heap| <= |t.heap|
  {
  }

  lemma TouchesMore(m: Memory, t: Memory, k: nat)
    requires Touches(m, t, k)
    ensures 0 < k <= |m.heap| <= |t.heap|
  {
  }

  // A nil for a key ends the table early.
  lemma FewAtNil(m: Memory, y: Memory, k: nat, n: nat, pairs: seq<Pair>, anc: seq<nat>, all: seq<nat>)
    requires 0 < k <= |m.heap| <= |y.heap| && y.heap[..|m.heap|] == m.heap
    requires pairs != [] && Meant(m, pairs[0].key, anc, all) == Nil
    ensures Few(m.heap[k - 1], y.heap[k - 1], n, |pairs|) && IsKey(m, pairs, anc, all, Nil)
  {
    hide Meant;
    assert pairs[0] in pairs;
    assert y.heap[..|m.heap|][k - 1] == y.heap[k - 1];
  }

  lemma RestRead(h: Heap, all: seq<nat>, m: Memory, x: Memory, y: Memory, k: nat, n: nat, pairs: seq<Pair>, anc: seq<nat>, val: Value,
                 ids2: seq<nat>, ids3: seq<nat>, more1: seq<Token>, more: seq<Token>, M: set<nat>)
    requires pairs != [] && 0 < k <= |m.heap| && |m.heap| <= |x.heap| <= |y.heap|
    requires Grew(m, x, [], m.heap[k - 1 := x.heap[k - 1]], ids2, more1, M)
    requires x.heap[k - 1] == Assign(m.heap[k - 1], Meant(m, pairs[0].key, anc, all), val)
    requires HashRead(h, all, x, y, k, n, pairs[1..], anc, ids3, more, M)
    ensures HashRead(h, all, m, y, k, n, pairs, anc, ids3, more, M)
  {
    hide Grew, Meant, Assign, OnlyKeys, Spoilt, Outside;
    var c, d, e := m.heap[k - 1], x.heap[k - 1], y.heap[k - 1];
    SameStack(m, x, m.heap[k - 1 := d], ids2, more1, M);
    if Spoilt(h, all, y.heap, |x.heap|) {
      SpoiltOn(h, all, y.heap, y.heap, |x.heap|, |m.heap|);
    } else if Few(d, e, n, |pairs[1..]|) && IsKey(x, pairs[1..], anc, all, Nil) {
      AssignOutside(c, Meant(m, pairs[0].key, anc, all), val, n);
      var f :| f in pairs[1..] && Meant(x, f.key, anc, all) == Nil;
      SameMeant(m, x, f.key, anc, all);
      assert f in pairs;
    } else {
      GrewOn(m, x, y, k, d, e, ids2, ids3, more1, more, M);
      OnlyKeysOn(c, e, m, x, pairs, anc, all, val);
    }
  }

  lemma {:induction false} SyncPair(h: Heap, all: seq<nat>, M: set<nat>, pairs: seq<Pair>, anc: seq<nat>, ids: seq<nat>,
                                    m: Memory, k: nat, n: nat, more: seq<Token>)
    requires Setting(h, all) && AllKnown(h, PairValues(pairs)) && GoodIds(h, ids) && pairs != []
    requires Synced(m, ids, M) && OnTop(m, k)
    requires Ahead(PackValues(h, PairValues(pairs), anc, ids), m, all, M, more)
    ensures var r := ReadHash(m, M);
      r.Ok? ==>
        && Touches(m, r.value, k)
        && HashRead(h, all, m, r.value, k, n, pairs, anc, PackValues(h, PairValues(pairs), anc, ids).ids, more, M)
    decreases Unseen(h, ids), |pairs| + 1, 1
  {
    hide GoodHeap, GoodIds, PackValue, PackValues, Unseen, ReadOne, ReadHash, Grew, Meant, Assign, Synced, PairValues, Slotted,
         Opens, New, OnlyKeys, Ahead, Spoilt, Few, KeysKnown, Touches;
    var p1, p2, p3, x := OnePair(h, all, M, pairs, anc, ids, m, k, more);
    if ReadHash(m, M).Ok? {
      FrameHash(m, k, M);
      HashBeyond(m, k, M);
      TouchesMore(m, ReadHash(m, M).value, k);
      var y, t := ReadHash(m, M).value, Deeper(ReadOne(m, M).value);
      if Spoilt(h, all, t.heap, |m.heap|) {
        SpoiltOn(h, all, t.heap, y.heap, |m.heap|, |m.heap|);
      } else if Meant(m, pairs[0].key, anc, all) == Nil {
        FewAtNil(m, y, k, n, pairs, anc, all);
      } else if Spoilt(h, all, ReadOne(t, M).value.heap, |t.heap|) {
        FrameOne(m, M);
        SpoiltOn(h, all, ReadOne(t, M).value.heap, y.heap, |t.heap|, |m.heap|);
      } else {
        SyncHash(h, all, M, pairs[1..], anc, p2.ids, x, k, n, more);
        TouchesMore(x, y, k);
        GrewMore(m, x, m.heap[k - 1 := x.heap[k - 1]], p2.ids, p3.toks + more, M);
        RestRead(h, all, m, x, y, k, n, pairs, anc, Meant(t, pairs[0].val, anc, all), p2.ids, p3.ids, p3.toks + more, more, M);
      }
    }
  }

  // ------------------------------------------------------------- one new table

  // The stretches of a new table's array part and hash part.
  lemma TableStretch(h: Heap, all: seq<nat>, M: set<nat>, r: nat, anc: seq<nat>, ids: seq<nat>, m: Memory, more: seq<Token>)
    returns (pa: Packed, pb: Packed)
    requires GoodHeap(h) && r in h && GoodIds(h, ids) && New(Table(r), anc, ids)
    requires Ahead(PackValue(h, Table(r), anc, ids), m, all, M, more)
    ensures GoodIds(h, ids + [r]) && Unseen(h, ids + [r]) < Unseen(h, ids) && ids + [r] <= all
    ensures AllKnown(h, ArrayFrom(h[r], 0)) && AllKnown(h, PairValues(HashPart(h[r], 0)))
    ensures pa == PackValues(h, ArrayFrom(h[r], 0), anc + [r], ids + [r]) && pa.Packed? && GoodIds(h, pa.ids)
    ensures Unseen(h, pa.ids) < Unseen(h, ids) && Marks(pa.toks, M)
    ensures pb == PackValues(h, PairValues(HashPart(h[r], 0)), anc + [r], pa.ids) && pb.Packed? && Marks(pb.toks, M)
    ensures ids + [r] <= pa.ids <= pb.ids == PackValue(h, Table(r), anc, ids).ids && pb.ids <= all
    ensures m.toks == [Head(|ids| + 1, h[r].border)] + (pa.toks + (pb.toks + more))
  {
    hide GoodHeap, GoodIds, PackValue, PackValues, Unseen;
    pa, pb := TablePacked(h, r, anc, ids);
    TableKnown(h, r);
    var head := [Head(|ids| + 1, h[r].border)];
    MarksSplit(head, pa.toks + pb.toks, M);
    MarksSplit(pa.toks, pb.toks, M);
    assert head + (pa.toks + pb.toks) + more == head + (pa.toks + (pb.toks + more));
  }

  // The new table is on top, the reader in step inside it.
  lemma OpenSynced(m: Memory, ids: seq<nat>, r: nat, p: Packed, all: seq<nat>, n: size, M: set<nat>, more: seq<Token>)
    returns (m0: Memory)
    requires Synced(m, ids, M) && p.Packed? && p.ids <= all && Marks(p.toks, M)
    requires m.toks == [Head(|ids| + 1, n)] + (p.toks + more)
    ensures m0 == Opened(m, |ids| + 1 in M) && Slots(m0)
    ensures Synced(m0, ids + [r], M) && OnTop(m0, |ids| + 1) && Ahead(p, m0, all, M, more)
    ensures m0.stack == m.stack + [Table(|ids| + 1)] && m0.heap == m.heap + [map[]] && m0.depth == m.depth + 1 && Slots(m)
    ensures m0.ancestor == if m.depth < MAX_DEPTH then m.ancestor[m.depth := |m.stack|] else m.ancestor
    ensures ReadOne(m, M) ==
      var r1 := ReadArray(m0, 1, n, M);
      if r1.Invalid? then Invalid else ReadHash(r1.value.(depth := r1.value.depth - 1), M)
  {
    hide ReadArray, ReadHash;
    m0 := Opened(m, |ids| + 1 in M);
    assert m0.toks == p.toks + more;
    assert MarkedUpTo(M, |ids| + 1) == if |ids| + 1 in M then MarkedUpTo(M, |ids|) + {|ids| + 1} else MarkedUpTo(M, |ids|);
  }

  lemma MiddleSynced(m0: Memory, m1: Memory, k: nat, ids0: seq<nat>, c: Content, ids1: seq<nat>, p: Packed, all: seq<nat>,
                     M: set<nat>, more: seq<Token>)
    requires Synced(m0, ids0, M) && OnTop(m0, k) && m0.depth > 0 && p.Packed? && p.ids <= all && Marks(p.toks, M)
    requires Grew(m0, m1, [], m0.heap[k - 1 := c], ids1, p.toks + more, M)
    ensures m1.depth == m0.depth && Synced(Shallower(m1), ids1, M)
    ensures OnTop(Shallower(m1), k) && Ahead(p, Shallower(m1), all, M, more) && Slots(m1)
  {
    SyncedOn(m0, m1, ids0, m0.heap[k - 1 := c], ids1, p.toks + more, M);
  }

  lemma TableGrew(m: Memory, m0: Memory, m1: Memory, y: Memory, k: nat, ids: seq<nat>, r: nat, c1: Content, c2: Content,
                  ids1: seq<nat>, ids2: seq<nat>, more1: seq<Token>, more: seq<Token>, M: set<nat>)
    requires Slots(m) && Slots(m0) && |m.heap| == |ids| == k - 1
    requires m0.stack == m.stack + [Table(k)] && m0.heap == m.heap + [map[]] && m0.depth == m.depth + 1
    requires m0.ancestor == if m.depth < MAX_DEPTH then m.ancestor[m.depth := |m.stack|] else m.ancestor
    requires Grew(m0, m1, [], m0.heap[k - 1 := c1], ids1, more1, M) && |m1.heap| >= k
    requires Grew(Shallower(m1), y, [], m1.heap[k - 1 := c2], ids2, more, M)
    ensures Grew(m, y, [Table(k)], m.heap, ids2, more, M) && Opens(m, y, true) && |y.heap| >= k && y.heap[k - 1] == c2
  {
    assert m1.stack == m0.stack && y.stack == m0.stack;
    assert y.heap[..k - 1] == y.heap[..|m1.heap|][..k - 1] == m1.heap[..k - 1];
    assert m1.heap[..k - 1] == m1.heap[..k][..k - 1] == m.heap;
    assert y.heap[k - 1] == y.heap[..|m1.heap|][k - 1];
  }

  lemma NewMeant(m: Memory, r: nat, anc: seq<nat>, ids: seq<nat>, all: seq<nat>)
    requires New(Table(r), anc, ids) && ids + [r] <= all
    ensures Meant(m, Table(r), anc, all) == Rename(all, Table(r)) == Table(|ids| + 1)
  {
    NewName(all, ids, r);
  }

  // A table met for the first time, read part by part.
  lemma {:induction false} TableRead(h: Heap, all: seq<nat>, M: set<nat>, r: nat, anc: seq<nat>, ids: seq<nat>, m: Memory,
                                     more: seq<Token>)
    returns (pa: Packed, pb: Packed, m0: Memory)
    requires Setting(h, all) && r in h && GoodIds(h, ids) && Synced(m, ids, M) && New(Table(r), anc, ids)
    requires Ahead(PackValue(h, Table(r), anc, ids), m, all, M, more)
    ensures GoodIds(h, ids + [r]) && Unseen(h, ids + [r]) < Unseen(h, ids) && ids + [r] <= all
    ensures AllKnown(h, ArrayFrom(h[r], 0)) && AllKnown(h, PairValues(HashPart(h[r], 0)))
    ensures pa == PackValues(h, ArrayFrom(h[r], 0), anc + [r], ids + [r]) && pa.Packed? && GoodIds(h, pa.ids)
    ensures Unseen(h, pa.ids) < Unseen(h, ids)
    ensures pb == PackValues(h, PairValues(HashPart(h[r], 0)), anc + [r], pa.ids) && pb.Packed?
    ensures ids + [r] <= pa.ids <= pb.ids == PackValue(h, Table(r), anc, ids).ids && pb.ids <= all
    ensures Slots(m) && Slots(m0) && Synced(m0, ids + [r], M) && OnTop(m0, |ids| + 1) && Ahead(pa, m0, all, M, pb.toks + more)
    ensures m0.stack == m.stack + [Table(|ids| + 1)] && m0.heap == m.heap + [map[]] && m0.depth == m.depth + 1 && |m.heap| == |ids|
    ensures m0.ancestor == if m.depth < MAX_DEPTH then m.ancestor[m.depth := |m.stack|] else m.ancestor
    ensures Meant(m, Table(r), anc, all) == Rename(all, Table(r)) == Table(|ids| + 1)
    ensures var r1 := ReadArray(m0, 1, h[r].border, M);
      if r1.Invalid? then ReadOne(m, M).Invalid? else
      var m2 := Shallower(r1.value);
      && ReadOne(m, M) == ReadHash(m2, M) && Touches(m0, r1.value, |ids| + 1) && OnTop(m2, |ids| + 1)
      && (!Spoilt(h, all, m2.heap, |ids| + 1) ==>
          && var c := ArrayOf(m0, anc + [r], all, map[], 1, ArrayFrom(h[r], 0));
          && Grew(m0, r1.value, [], m0.heap[|ids| := c], pa.ids, pb.toks + more, M) && m2.heap[|ids|] == c
          && Synced(m2, pa.ids, M) && Ahead(pb, m2, all, M, more))
    decreases Unseen(h, ids), 0, 0
  {
    hide GoodHeap, GoodIds, PackValue, PackValues, Unseen, ReadOne, ReadHash, ReadArray, Grew, Meant, Synced, PairValues, Ahead,
         Opened, ArrayOf, Spoilt, KeysKnown, Touches;
    pa, pb := TableStretch(h, all, M, r, anc, ids, m, more);
    HeapOf(m, ids, M);
    m0 := OpenSynced(m, ids, r, pa, all, h[r].border, M, pb.toks + more);
    NewMeant(m, r, anc, ids, all);
    SyncArray(h, all, M, ArrayFrom(h[r], 0), anc + [r], ids + [r], m0, 1, |ids| + 1, pb.toks + more);
    FrameArray(m0, 1, h[r].border, |ids| + 1, M);
    var r1 := ReadArray(m0, 1, h[r].border, M);
    if r1.Ok? && !Spoilt(h, all, r1.value.heap, |ids| + 1) {
      MiddleSynced(m0, r1.value, |ids| + 1, ids + [r], r1.value.heap[|ids|], pa.ids, pb, all, M, more);
    }
  }

  // A table with too few keys is wrong.
  lemma FewIsWrong(h: Heap, all: seq<nat>, ids: seq<nat>, r: nat, m0: Memory, anc: seq<nat>, m2: Memory, y: Memory)
    requires Setting(h, all) && r in h && ids + [r] <= all && |ids| < |m2.heap| <= |y.heap|
    requires m2.heap[|ids|] == ArrayOf(m0, anc, all, map[], 1, ArrayFrom(h[r], 0))
    requires Few(m2.heap[|ids|], y.heap[|ids|], h[r].border, |HashPart(h[r], 0)|)
    ensures Spoilt(h, all, y.heap, |ids|)
  {
    hide ArrayOf, HashPart, ArrayFrom, Image, Outside;
    assert (ids + [r])[|ids|] == r && all[|ids|] == r && r in all;
    ArrayOutside(m0, anc, all, ArrayFrom(h[r], 0));
    ImageOutside(all, h[r]);
    assert Wrong(h, all, y.heap, |ids|);
  }

  lemma {:induction false} SyncTable(h: Heap, all: seq<nat>, M: set<nat>, r: nat, anc: seq<nat>, ids: seq<nat>, m: Memory,
                                     more: seq<Token>)
    requires Setting(h, all) && r in h && GoodIds(h, ids) && Synced(m, ids, M) && New(Table(r), anc, ids)
    requires Ahead(PackValue(h, Table(r), anc, ids), m, all, M, more) && Slots(m)
    ensures ReadsAs(h, all, m, ReadOne(m, M), Meant(m, Table(r), anc, all), true, PackValue(h, Table(r), anc, ids).ids, more, M)
    decreases Unseen(h, ids), 0, 1
  {
    hide GoodHeap, GoodIds, PackValue, PackValues, Unseen, ReadOne, ReadHash, ReadArray, Grew, Meant, Synced, PairValues, Ahead,
         Opened, ArrayOf, Slotted, OnlyKeys, Opens, New, Spoilt, Few, KeysKnown, Touches;
    var pa, pb, m0 := TableRead(h, all, M, r, anc, ids, m, more);
    var r1, k := ReadArray(m0, 1, h[r].border, M), |ids| + 1;
    if ReadOne(m, M).Ok? {
      var m2 := Shallower(r1.value);
      var y := ReadHash(m2, M).value;
      FrameHash(m2, k, M);
      if Spoilt(h, all, m2.heap, k) {
        TouchesBeyond(m2, y, k);
        SpoiltOn(h, all, m2.heap, y.heap, k, k);
        SpoiltOn(h, all, y.heap, y.heap, k, |ids|);
      } else {
        SyncHash(h, all, M, HashPart(h[r], 0), anc + [r], pa.ids, m2, k, h[r].border, more);
        TouchesMore(m0, r1.value, k);
        TouchesMore(m2, y, k);
        if Spoilt(h, all, y.heap, |m2.heap|) {
          SpoiltOn(h, all, y.heap, y.heap, |m2.heap|, |ids|);
        } else if Few(m2.heap[k - 1], y.heap[k - 1], h[r].border, |HashPart(h[r], 0)|) {
          FewIsWrong(h, all, ids, r, m0, anc + [r], m2, y);
        } else {
          TableGrew(m, m0, r1.value, y, k, ids, r, m2.heap[k - 1], y.heap[k - 1], pa.ids, pb.ids, pb.toks + more, more, M);
        }
      }
    }
  }

  // Whatever was packed: the reader ends where the packer did, or with a table
  // that is wrong.
  lemma {:induction false} SyncValue(h: Heap, all: seq<nat>, M: set<nat>, v: Value, anc: seq<nat>, ids: seq<nat>, m: Memory,
                                     more: seq<Token>)
    requires Setting(h, all) && Known(h, v) && GoodIds(h, ids) && Synced(m, ids, M)
    requires Ahead(PackValue(h, v, anc, ids), m, all, M, more)
    ensures Slots(m) && ReadsAs(h, all, m, ReadOne(m, M), Meant(m, v, anc, all), New(v, anc, ids), PackValue(h, v, anc, ids).ids, more, M)
    decreases Unseen(h, ids), 0, 2
  {
    hide GoodHeap, GoodIds, PackValue, Unseen, ReadOne, Meant, Synced, Ahead, Grew, Opens, Spoilt, KeysKnown;
    HeapOf(m, ids, M);
    if New(v, anc, ids) {
      SyncTable(h, all, M, v.ref, anc, ids, m, more);
    } else {
      SyncLeaf(h, all, M, v, anc, ids, m, more);
    }
  }
}
