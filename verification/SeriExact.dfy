// The reader rebuilds a value just when every reference by depth in it is safe.
module SeriExact {
  import opened SeriFormat
  import opened SeriPack
  import opened SeriUnpack
  import opened SeriTokens
  import opened SeriFrame
  import opened SeriImage
  import opened SeriStraight
  import opened SeriSync
  import opened SeriContext
  import opened SeriContent

  // The tables numbered from+1 .. to are images of the writer's.
  ghost predicate Made(h: Heap, all: seq<nat>, heap: seq<Content>, from: nat, to: nat) {
    from <= to <= |all| && from <= |heap| && (forall x | x in all :: x in h) && heap[from..] == Images(h, all, from, to)
  }

  // The value was read right, and so were the tables opened for it.
  ghost predicate Right(h: Heap, all: seq<nat>, m: Memory, r: Result<Memory>, v: Value, anc: seq<nat>, from: nat, to: nat) {
    r.Ok? && Meant(m, v, anc, all) == Rename(all, v) && Made(h, all, r.value.heap, from, to)
  }

  lemma AllInHeap(h: Heap, all: seq<nat>)
    requires GoodIds(h, all)
    ensures forall x | x in all :: x in h
  {
  }

  // ------------------------------------------------------------- pieces of the heap

  lemma MadeSplit(h: Heap, all: seq<nat>, heap: seq<Content>, first: seq<Content>, a: nat, b: nat, c: nat)
    requires a <= b <= c <= |all| && (forall x | x in all :: x in h) && |first| == b && |heap| == c && heap[a..b] == first[a..]
    ensures Made(h, all, heap, a, c) <==> Made(h, all, first, a, b) && Made(h, all, heap, b, c)
  {
    hide Images;
    ImagesSplit(h, all, a, b, c);
    assert heap[a..] == heap[a..b] + heap[b..];
    var x, y := Images(h, all, a, b), Images(h, all, b, c);
    if heap[a..] == x + y {
      assert heap[a..b] == (x + y)[..b - a] == x;
      assert heap[b..] == (x + y)[b - a..] == y;
    }
  }

  lemma MadeOne(h: Heap, all: seq<nat>, heap: seq<Content>, a: nat)
    requires a < |all| && (forall x | x in all :: x in h) && |heap| == a + 1
    ensures all[a] in all && (Made(h, all, heap, a, a + 1) <==> heap[a] == Image(all, h[all[a]].entries))
  {
    hide Image;
    assert heap[a..] == [heap[a]];
    assert all[a] in all;
    assert Images(h, all, a, a + 1) == [Image(all, h[all[a]].entries)];
  }

  lemma MadeIsRight(h: Heap, all: seq<nat>, heap: seq<Content>, from: nat, to: nat, q: nat)
    requires Made(h, all, heap, from, to) && from <= q < |heap|
    ensures !Wrong(h, all, heap, q)
  {
    hide Image;
    assert heap[q] == heap[from..][q - from] == Images(h, all, from, to)[q - from];
    assert all[q] in all;
  }

  lemma SpoiltNotMade(h: Heap, all: seq<nat>, heap: seq<Content>, from: nat, start: nat, to: nat)
    requires Spoilt(h, all, heap, from) && start <= from
    ensures !Made(h, all, heap, start, to)
  {
    hide Made, Wrong;
    var q :| from <= q < |heap| && Wrong(h, all, heap, q);
    if Made(h, all, heap, start, to) { MadeIsRight(h, all, heap, start, to, q); }
  }

  lemma MadeNone(h: Heap, all: seq<nat>, heap: seq<Content>, a: nat)
    requires a <= |all| && (forall x | x in all :: x in h) && |heap| == a
    ensures Made(h, all, heap, a, a)
  {
  }

  // -------------------------------------------------------------------- the condition

  // The keys of straight pairs are safe.
  lemma {:induction false} StraightKeys(h: Heap, pairs: seq<Pair>, anc: seq<nat>, ids: seq<nat>, clean: set<nat>, shifted: bool)
    requires GoodHeap(h) && AllKnown(h, PairValues(pairs)) && GoodIds(h, ids) && Within(anc, ids)
    requires PackValues(h, PairValues(pairs), anc, ids).Packed? && StraightPairs(h, pairs, anc, ids, clean, shifted)
    ensures forall e | e in pairs :: SafeKey(e.key, anc, clean)
    decreases |pairs|
  {
    hide GoodHeap, PackValue, PackValues, Unseen, PairValues;
    if pairs != [] {
      var p, q := PairPacked(h, pairs, anc, ids);
      PairKnown(h, pairs);
      WithinMore(anc, ids, q.ids);
      StraightKeys(h, pairs[1..], anc, q.ids, After(clean, anc, ids, pairs[0].key), shifted);
    }
  }

  lemma SafeKeysRight(m: Memory, pairs: seq<Pair>, anc: seq<nat>, ids: seq<nat>, all: seq<nat>, clean: set<nat>)
    requires Context(m, anc, ids, all, Beside(clean, anc), true) && forall e | e in pairs :: SafeKey(e.key, anc, clean)
    ensures KeysRight(m, pairs, anc, all)
  {
    hide Meant, Context;
    forall e | e in pairs ensures Meant(m, e.key, anc, all) == Rename(all, e.key) {
      if e.key.Table? && ByAncestor(anc, e.key.ref) {
        SafeMeant(m, e.key, anc, ids, all, Beside(clean, anc), true);
      } else {
        PlainMeant(m, e.key, anc, all);
      }
    }
  }

  // -------------------------------------------------------------------- the induction

  lemma ExactLeaf(h: Heap, all: seq<nat>, M: set<nat>, v: Value, anc: seq<nat>, ids: seq<nat>, m: Memory, more: seq<Token>,
                  clean: set<nat>, shifted: bool)
    requires Setting(h, all) && Known(h, v) && GoodIds(h, ids) && Synced(m, ids, M) && !New(v, anc, ids)
    requires Ahead(PackValue(h, v, anc, ids), m, all, M, more) && Context(m, anc, ids, all, clean, shifted)
    ensures Right(h, all, m, ReadOne(m, M), v, anc, |ids|, |PackValue(h, v, anc, ids).ids|) <==>
            StraightValue(h, v, anc, ids, clean, shifted)
  {
    hide GoodHeap, PackValue, Ahead, MarkedUpTo, ReadOne, Meant, Context, Grew, Synced, Made, KeysKnown;
    HeapOf(m, ids, M);
    SyncLeaf(h, all, M, v, anc, ids, m, more);
    IdsInAll(m, anc, ids, all, clean, shifted);
    AllInHeap(h, all);
    MadeNone(h, all, m.heap, |ids|);
    if v.Table? && ByAncestor(anc, v.ref) {
      if IndexOf(anc, v.ref) in clean {
        SafeMeant(m, v, anc, ids, all, clean, shifted);
      } else {
        UnsafeMeant(m, v, v, anc, ids, all, clean, shifted);
      }
    } else {
      PlainMeant(m, v, anc, all);
    }
  }

  lemma IdsInAll(m: Memory, anc: seq<nat>, ids: seq<nat>, all: seq<nat>, clean: set<nat>, shifted: bool)
    requires Context(m, anc, ids, all, clean, shifted)
    ensures ids <= all && |ids| <= |all| && Within(anc, ids)
  {
  }

  // The elements of the array part.
  lemma {:induction false} ExactArray(h: Heap, all: seq<nat>, M: set<nat>, vs: seq<Value>, anc: seq<nat>, ids: seq<nat>,
                                      m: Memory, i: nat, k: nat, more: seq<Token>, clean: set<nat>, shifted: bool)
    requires Setting(h, all) && AllKnown(h, vs) && GoodIds(h, ids) && Synced(m, ids, M) && OnTop(m, k)
    requires Ahead(PackValues(h, vs, anc, ids), m, all, M, more) && 0 < i && i + |vs| <= MAX_SIZE
    requires Context(m, anc, ids, all, clean, shifted)
    ensures var r := ReadArray(m, i, i + |vs| - 1, M);
      (r.Ok? && ElementsRight(m, vs, anc, all) && Made(h, all, r.value.heap, |ids|, |PackValues(h, vs, anc, ids).ids|)) <==>
      StraightList(h, vs, anc, ids, clean, shifted)
    decreases Unseen(h, ids), |vs| + 1, 2
  {
    if vs == [] {
      assert m.toks == more;
      MadeNone(h, all, m.heap, |ids|);
    } else {
      ExactElement(h, all, M, vs, anc, ids, m, i, k, more, clean, shifted);
    }
  }

  lemma {:induction false} ExactElement(h: Heap, all: seq<nat>, M: set<nat>, vs: seq<Value>, anc: seq<nat>, ids: seq<nat>,
                                        m: Memory, i: nat, k: nat, more: seq<Token>, clean: set<nat>, shifted: bool)
    requires Setting(h, all) && AllKnown(h, vs) && GoodIds(h, ids) && Synced(m, ids, M) && OnTop(m, k)
    requires Ahead(PackValues(h, vs, anc, ids), m, all, M, more) && 0 < i && i + |vs| <= MAX_SIZE && vs != []
    requires Context(m, anc, ids, all, clean, shifted)
    ensures var r := ReadArray(m, i, i + |vs| - 1, M);
      (r.Ok? && ElementsRight(m, vs, anc, all) && Made(h, all, r.value.heap, |ids|, |PackValues(h, vs, anc, ids).ids|)) <==>
      StraightList(h, vs, anc, ids, clean, shifted)
    decreases Unseen(h, ids), |vs| + 1, 1
  {
    hide GoodHeap, GoodIds, PackValue, PackValues, Unseen, ReadOne, ReadArray, Grew, Meant, Slotted, Assign, Synced, Context, Made,
         StraightList, StraightValue, ElementsRight, KeysKnown, Spoilt, Touches, Opens, New;
    var pv, pr := ListStretch(h, all, M, vs, anc, ids, m, more);
    HeapOf(m, ids, M);
    ReadArrayUnfold(m, i, i + |vs| - 1, M);
    StraightListParts(h, vs, anc, ids, clean, shifted, pv);
    SyncValue(h, all, M, vs[0], anc, ids, m, pr.toks + more);
    ExactValue(h, all, M, vs[0], anc, ids, m, pr.toks + more, clean, shifted);
    var r := ReadArray(m, i, i + |vs| - 1, M);
    if ReadOne(m, M).Ok? && Spoilt(h, all, ReadOne(m, M).value.heap, |m.heap|) {
      SpoiltNotMade(h, all, ReadOne(m, M).value.heap, |ids|, |ids|, |pv.ids|);
      if r.Ok? {
        ArrayBeyond(m, i, i + |vs| - 1, k, M);
        SpoiltOn(h, all, ReadOne(m, M).value.heap, r.value.heap, |ids|, |ids|);
        SpoiltNotMade(h, all, r.value.heap, |ids|, |ids|, |pr.ids|);
      }
    } else if ReadOne(m, M).Ok? {
      var t, w := ReadOne(m, M).value, Meant(m, vs[0], anc, all);
      AllInHeap(h, all);
      ReadFacts(h, all, m, ReadOne(m, M), w, New(vs[0], anc, ids), pv.ids, pr.toks + more, M);
      var u := StoreElement(m, t, k, i, w, pv.ids, pr.toks + more, M);
      ElementOn(m, u, k, w, i, ids, pv.ids, pr, all, M, more);
      HeapOf(u, pv.ids, M);
      ContextOn(m, u, anc, ids, pv.ids, all, clean, shifted);
      SyncArray(h, all, M, vs[1..], anc, pv.ids, u, i + 1, k, more);
      ExactArray(h, all, M, vs[1..], anc, pv.ids, u, i + 1, k, more, clean, shifted);
      ElementsSplit(m, u, vs, anc, all);
      if r.Ok? && Spoilt(h, all, r.value.heap, |u.heap|) {
        SpoiltNotMade(h, all, r.value.heap, |u.heap|, |pv.ids|, |pr.ids|);
        SpoiltNotMade(h, all, r.value.heap, |u.heap|, |ids|, |pr.ids|);
      } else if r.Ok? {
        GrewFacts(u, r.value, k, r.value.heap[k - 1], pr.ids, more, M);
        FilledOn(h, all, ids, pv.ids, pr.ids, t, u, r.value, k, pr.toks + more, more, M, m);
      }
    }
  }

  lemma ElementsSplit(m: Memory, u: Memory, vs: seq<Value>, anc: seq<nat>, all: seq<nat>)
    requires vs != [] && Slotted(m, u) && u.stack == m.stack && u.depth == m.depth
    ensures ElementsRight(m, vs, anc, all) <==> Meant(m, vs[0], anc, all) == Rename(all, vs[0]) && ElementsRight(u, vs[1..], anc, all)
  {
    hide Meant, Rename, Slotted;
    forall v ensures Meant(u, v, anc, all) == Meant(m, v, anc, all) { SameMeant(m, u, v, anc, all); }
    if Meant(m, vs[0], anc, all) == Rename(all, vs[0]) && ElementsRight(u, vs[1..], anc, all) {
      forall i | 0 <= i < |vs| ensures Meant(m, vs[i], anc, all) == Rename(all, vs[i]) {
        if i > 0 { assert vs[i] == vs[1..][i - 1]; }
      }
    }
    if ElementsRight(m, vs, anc, all) {
      forall i | 0 <= i < |vs[1..]| ensures Meant(u, vs[1..][i], anc, all) == Rename(all, vs[1..][i]) {
        assert vs[1..][i] == vs[i + 1];
      }
    }
  }

  // An element's own tables, and those of the elements after it.
  lemma FilledOn(h: Heap, all: seq<nat>, ids: seq<nat>, ids1: seq<nat>, ids2: seq<nat>, t: Memory, u: Memory, y: Memory, k: nat,
                 more1: seq<Token>, more: seq<Token>, M: set<nat>, m: Memory)
    requires |ids| == |m.heap| && ids <= ids1 <= ids2 <= all && (forall x | x in all :: x in h) && 0 < k <= |ids|
    requires |t.heap| == |u.heap| == |ids1| && u.heap == t.heap[k - 1 := u.heap[k - 1]] && k <= |y.heap|
    requires Grew(u, y, [], u.heap[k - 1 := y.heap[k - 1]], ids2, more, M)
    ensures Made(h, all, y.heap, |ids|, |ids2|) <==> Made(h, all, t.heap, |ids|, |ids1|) && Made(h, all, y.heap, |ids1|, |ids2|)
  {
    hide Images, Made;
    var a, b := |ids|, |ids1|;
    assert y.heap[..b] == t.heap[k - 1 := y.heap[k - 1]];
    assert y.heap[a..b] == y.heap[..b][a..] == t.heap[a..];
    MadeSplit(h, all, y.heap, t.heap, a, b, |ids2|);
  }

  // The pairs of the hash part, when their keys are read right.
  lemma {:induction false} ExactHash(h: Heap, all: seq<nat>, M: set<nat>, pairs: seq<Pair>, anc: seq<nat>, ids: seq<nat>,
                                     m: Memory, k: nat, more: seq<Token>, clean: set<nat>, shifted: bool)
    requires Setting(h, all) && AllKnown(h, PairValues(pairs)) && GoodIds(h, ids) && NoNilKeys(pairs)
    requires Synced(m, ids, M) && OnTop(m, k) && DistinctKeys(pairs) && PairsInStream(all, pairs)
    requires Ahead(PackValues(h, PairValues(pairs), anc, ids), m, all, M, more)
    requires Loop(m, anc, ids, all, clean, shifted) && KeysRight(m, pairs, anc, all)
    ensures var r := ReadHash(m, M);
      (r.Ok? && 0 < k <= |r.value.heap| && ValuesRight(r.value.heap[k - 1], pairs, all) &&
       Made(h, all, r.value.heap, |ids|, |PackValues(h, PairValues(pairs), anc, ids).ids|)) <==>
      StraightPairs(h, pairs, anc, ids, clean, shifted)
    decreases Unseen(h, ids), |pairs| + 1, 2
  {
    if pairs == [] {
      hide Loop, GoodHeap, ReadHash, Made;
      assert PairValues(pairs) == [Nil];
      SyncEnd(h, all, M, anc, ids, m, k, more);
      MadeNone(h, all, m.heap, |ids|);
    } else {
      ExactPair(h, all, M, pairs, anc, ids, m, k, more, clean, shifted);
    }
  }

  lemma RightIsSafe(m: Memory, key: Value, anc: seq<nat>, ids: seq<nat>, all: seq<nat>, clean: set<nat>)
    requires Context(m, anc, ids, all, Beside(clean, anc), true) && Meant(m, key, anc, all) == Rename(all, key)
    ensures SafeKey(key, anc, clean)
  {
    hide Context, Meant;
    if !SafeKey(key, anc, clean) {
      UnsafeMeant(m, key, key, anc, ids, all, Beside(clean, anc), true);
    }
  }

  // The value stored first stays: the later pairs have other keys.
  lemma ValuesSplit(c: Content, key: Value, val: Value, d: Content, x: Memory, pairs: seq<Pair>, anc: seq<nat>, all: seq<nat>)
    requires pairs != [] && DistinctKeys(pairs) && PairsInStream(all, pairs) && KeysRight(x, pairs[1..], anc, all)
    requires key == Rename(all, pairs[0].key) && OnlyKeys(Assign(c, key, val), d, x, pairs[1..], anc, all)
    ensures ValuesRight(d, pairs, all) <==> val == Rename(all, pairs[0].val) && ValuesRight(d, pairs[1..], all)
  {
    hide Meant, Rename;
    assert pairs[0] in pairs;
    forall e | e in pairs[1..] ensures Meant(x, e.key, anc, all) != key && e in pairs {
      var i :| 0 <= i < |pairs[1..]| && pairs[1..][i] == e;
      assert pairs[i + 1] == e;
      if Rename(all, e.key) == key { RenameInjective(all, e.key, pairs[0].key); }
    }
    assert !IsKey(x, pairs[1..], anc, all, key);
    assert Lookup(d, key) == Lookup(Assign(c, key, val), key) == val;
    assert forall e | e in pairs :: e == pairs[0] || e in pairs[1..];
  }

  // The tables of the key, of the value and of what comes after them.
  lemma PairFilled(h: Heap, all: seq<nat>, ids: seq<nat>, ids1: seq<nat>, ids2: seq<nat>, ids3: seq<nat>, m: Memory, t: Memory,
                   u: Memory, x: Memory, y: Memory, k: nat, more1: seq<Token>, more: seq<Token>, M: set<nat>)
    requires |ids| == |m.heap| && ids <= ids1 <= ids2 <= ids3 <= all && (forall x | x in all :: x in h) && 0 < k <= |ids|
    requires |t.heap| == |ids1| && |u.heap| == |x.heap| == |ids2| && k <= |y.heap|
    requires u.heap[..|ids1|] == t.heap && x.heap == u.heap[k - 1 := x.heap[k - 1]]
    requires Grew(x, y, [], x.heap[k - 1 := y.heap[k - 1]], ids3, more, M)
    ensures Made(h, all, y.heap, |ids|, |ids3|) <==>
      Made(h, all, t.heap, |ids|, |ids1|) && Made(h, all, u.heap, |ids1|, |ids2|) && Made(h, all, y.heap, |ids2|, |ids3|)
  {
    hide Images, Made;
    FilledOn(h, all, ids, ids2, ids3, u, x, y, k, more1, more, M, m);
    assert u.heap[|ids|..|ids1|] == u.heap[..|ids1|][|ids|..] == t.heap[|ids|..];
    MadeSplit(h, all, u.heap, t.heap, |ids|, |ids1|, |ids2|);
  }

  lemma ReadFacts(h: Heap, all: seq<nat>, m: Memory, r: Result<Memory>, w: Value, opens: bool, ids': seq<nat>, more: seq<Token>,
                  M: set<nat>)
    requires ReadsAs(h, all, m, r, w, opens, ids', more, M) && r.Ok? && !Spoilt(h, all, r.value.heap, |m.heap|)
    ensures r.value.stack == m.stack + [w] && r.value.depth == m.depth && Slotted(m, r.value) && Opens(m, r.value, opens)
    ensures |m.heap| <= |r.value.heap| == |ids'| && r.value.heap[..|m.heap|] == m.heap
  {
  }

  lemma GrewFacts(m: Memory, t: Memory, k: nat, c: Content, ids': seq<nat>, more: seq<Token>, M: set<nat>)
    requires 0 < k <= |m.heap| && Grew(m, t, [], m.heap[k - 1 := c], ids', more, M)
    ensures |m.heap| <= |t.heap| == |ids'| && t.stack == m.stack && t.depth == m.depth && Slotted(m, t)
    ensures t.heap[..|m.heap|] == m.heap[k - 1 := c]
  {
    assert m.stack + [] == m.stack;
  }

  lemma KeysRightOn(m: Memory, x: Memory, pairs: seq<Pair>, anc: seq<nat>, all: seq<nat>)
    requires pairs != [] && KeysRight(m, pairs, anc, all) && Slotted(m, x) && x.stack == m.stack && x.depth == m.depth
    ensures KeysRight(x, pairs[1..], anc, all) && Meant(m, pairs[0].key, anc, all) == Rename(all, pairs[0].key)
  {
    hide Meant;
    assert pairs[0] in pairs;
    forall e | e in pairs[1..] ensures Meant(x, e.key, anc, all) == Rename(all, e.key) {
      assert e in pairs;
      SameMeant(m, x, e.key, anc, all);
    }
  }

  lemma PairTail(all: seq<nat>, pairs: seq<Pair>)
    requires pairs != [] && DistinctKeys(pairs) && PairsInStream(all, pairs) && NoNilKeys(pairs)
    ensures DistinctKeys(pairs[1..]) && PairsInStream(all, pairs[1..]) && NoNilKeys(pairs[1..]) && InStream(all, pairs[0].key)
  {
    assert pairs[0] in pairs && forall e | e in pairs[1..] :: e in pairs;
  }

  lemma LoopIds(m: Memory, anc: seq<nat>, ids: seq<nat>, all: seq<nat>, clean: set<nat>, shifted: bool)
    requires Loop(m, anc, ids, all, clean, shifted)
    ensures ids <= all
  {
  }

  lemma NamedNotNil(all: seq<nat>, v: Value)
    requires v != Nil
    ensures Rename(all, v) != Nil
  {
  }

  lemma NoKeyIsNil(m: Memory, pairs: seq<Pair>, anc: seq<nat>, all: seq<nat>)
    requires KeysRight(m, pairs, anc, all) && NoNilKeys(pairs)
    ensures !IsKey(m, pairs, anc, all, Nil)
  {
    hide Meant;
  }

  lemma SlottedSelf(m: Memory)
    requires Slots(m)
    ensures Slotted(m, m)
  {
  }

  lemma SlottedAs(m: Memory, u: Memory, x: Memory)
    requires Slotted(m, u) && x.ancestor == u.ancestor
    ensures Slotted(m, x)
  {
  }

  lemma {:induction false} ExactPair(h: Heap, all: seq<nat>, M: set<nat>, pairs: seq<Pair>, anc: seq<nat>, ids: seq<nat>,
                                     m: Memory, k: nat, more: seq<Token>, clean: set<nat>, shifted: bool)
    requires Setting(h, all) && AllKnown(h, PairValues(pairs)) && GoodIds(h, ids) && NoNilKeys(pairs)
    requires Synced(m, ids, M) && OnTop(m, k) && DistinctKeys(pairs) && PairsInStream(all, pairs) && pairs != []
    requires Ahead(PackValues(h, PairValues(pairs), anc, ids), m, all, M, more)
    requires Loop(m, anc, ids, all, clean, shifted) && KeysRight(m, pairs, anc, all)
    ensures var r := ReadHash(m, M);
      (r.Ok? && 0 < k <= |r.value.heap| && ValuesRight(r.value.heap[k - 1], pairs, all) &&
       Made(h, all, r.value.heap, |ids|, |PackValues(h, PairValues(pairs), anc, ids).ids|)) <==>
      StraightPairs(h, pairs, anc, ids, clean, shifted)
    decreases Unseen(h, ids), |pairs| + 1, 1
  {
    hide GoodHeap, GoodIds, PackValue, PackValues, Unseen, ReadOne, ReadHash, Grew, Meant, Assign, Synced, PairValues, Slotted,
         Opens, New, OnlyKeys, Ahead, Loop, Context, StraightPairs, StraightValue, ValuesRight, Made, KeysRight, After, Beside, ReadsAs,
         KeysKnown, DistinctKeys, PairsInStream, SafeKey, InStream, Spoilt, Few, Touches, Rename, IsKey;
    var e := pairs[0];
    var after := After(clean, anc, ids, e.key);
    HeapOf(m, ids, M);
    LoopIds(m, anc, ids, all, clean, shifted);
    PairTail(all, pairs);
    var p1, p2, p3, x := OnePair(h, all, M, pairs, anc, ids, m, k, more);
    StraightPairsParts(h, pairs, anc, ids, clean, shifted, p1, p2);
    KeyContext(m, anc, ids, all, clean, shifted);
    ExactValue(h, all, M, e.key, anc, ids, m, p2.toks + (p3.toks + more), Beside(clean, anc), true);
    SlottedSelf(m);
    KeysRightOn(m, m, pairs, anc, all);
    if ReadOne(m, M).Ok? && Spoilt(h, all, ReadOne(m, M).value.heap, |m.heap|) {
      SpoiltNotMade(h, all, ReadOne(m, M).value.heap, |ids|, |ids|, |p1.ids|);
      if ReadHash(m, M).Ok? {
        HashBeyond(m, k, M);
        SpoiltOn(h, all, ReadOne(m, M).value.heap, ReadHash(m, M).value.heap, |ids|, |ids|);
        SpoiltNotMade(h, all, ReadHash(m, M).value.heap, |ids|, |ids|, |p3.ids|);
      }
    } else if ReadOne(m, M).Ok? {
      var t := ReadOne(m, M).value;
      ReadFacts(h, all, m, ReadOne(m, M), Rename(all, e.key), New(e.key, anc, ids), p1.ids, p2.toks + (p3.toks + more), M);
      NamedNotNil(all, e.key);
      RightIsSafe(m, e.key, anc, ids, all, clean);
      ValueContext(m, t, e.key, anc, ids, p1.ids, all, clean, shifted);
      ExactValue(h, all, M, e.val, anc, p1.ids, Deeper(t), p3.toks + more, after, shifted);
      if ReadOne(Deeper(t), M).Ok? && Spoilt(h, all, ReadOne(Deeper(t), M).value.heap, |t.heap|) {
        SpoiltNotMade(h, all, ReadOne(Deeper(t), M).value.heap, |t.heap|, |p1.ids|, |p2.ids|);
        if ReadHash(m, M).Ok? {
          HashBeyond(m, k, M);
          SpoiltOn(h, all, ReadOne(Deeper(t), M).value.heap, ReadHash(m, M).value.heap, |t.heap|, |ids|);
          SpoiltNotMade(h, all, ReadHash(m, M).value.heap, |ids|, |ids|, |p3.ids|);
        }
      } else if ReadOne(Deeper(t), M).Ok? {
        var u, val := ReadOne(Deeper(t), M).value, Meant(Deeper(t), e.val, anc, all);
        ReadFacts(h, all, Deeper(t), ReadOne(Deeper(t), M), val, New(e.val, anc, p1.ids), p2.ids, p3.toks + more, M);
        SameStack(m, x, m.heap[k - 1 := x.heap[k - 1]], p2.ids, p3.toks + more, M);
        SlottedAs(Deeper(t), u, x);
        NextContext(m, t, x, e.key, anc, ids, p2.ids, all, clean, shifted);
        KeysRightOn(m, x, pairs, anc, all);
        SyncHash(h, all, M, pairs[1..], anc, p2.ids, x, k, 0, more);
        ExactHash(h, all, M, pairs[1..], anc, p2.ids, x, k, more, after, shifted);
        NoKeyIsNil(x, pairs[1..], anc, all);
        if ReadHash(x, M).Ok? && Spoilt(h, all, ReadHash(x, M).value.heap, |x.heap|) {
          SpoiltNotMade(h, all, ReadHash(x, M).value.heap, |x.heap|, |p2.ids|, |p3.ids|);
          SpoiltNotMade(h, all, ReadHash(x, M).value.heap, |x.heap|, |ids|, |p3.ids|);
        } else if ReadHash(x, M).Ok? {
          var y := ReadHash(x, M).value;
          AllInHeap(h, all);
          TouchesMore(x, y, k);
          GrewFacts(x, y, k, y.heap[k - 1], p3.ids, more, M);
          ValuesSplit(m.heap[k - 1], Rename(all, e.key), val, y.heap[k - 1], x, pairs, anc, all);
          PairFilled(h, all, ids, p1.ids, p2.ids, p3.ids, m, t, u, x, y, k, p3.toks + more, more, M);
        }
      }
    }
  }

  // The parts of a table's stretch of the heap.
  lemma TableFilled(h: Heap, all: seq<nat>, ids: seq<nat>, r: nat, ids1: seq<nat>, ids2: seq<nat>, m0: Memory, m2: Memory, y: Memory,
                    more1: seq<Token>, more: seq<Token>, M: set<nat>)
    requires |m0.heap| == |ids| + 1 && ids + [r] <= ids1 <= ids2 <= all && forall x | x in all :: x in h
    requires |m2.heap| == |ids1| && |y.heap| > |ids| && Grew(m2, y, [], m2.heap[|ids| := y.heap[|ids|]], ids2, more, M)
    ensures r in h && (Made(h, all, y.heap, |ids|, |ids2|) <==>
      y.heap[|ids|] == Image(all, h[r].entries) && Made(h, all, m2.heap, |ids| + 1, |ids1|) && Made(h, all, y.heap, |ids1|, |ids2|))
  {
    hide Images, Made, Image;
    var a, b, c := |ids|, |ids1|, |ids2|;
    assert all[a] == (ids + [r])[a] == r && r in ids + [r] && r in all;
    assert y.heap[..b] == m2.heap[a := y.heap[a]];
    assert y.heap[a + 1..b] == y.heap[..b][a + 1..] == m2.heap[a + 1..];
    MadeSplit(h, all, y.heap, m2.heap, a + 1, b, c);
    var first := y.heap[..a + 1];
    MadeOne(h, all, first, a);
    assert y.heap[a..a + 1] == first[a..];
    MadeSplit(h, all, y.heap, first, a, a + 1, c);
  }

  lemma {:induction false} ExactTable(h: Heap, all: seq<nat>, M: set<nat>, r: nat, anc: seq<nat>, ids: seq<nat>, m: Memory,
                                      more: seq<Token>, clean: set<nat>, shifted: bool)
    requires Setting(h, all) && r in h && GoodIds(h, ids) && Synced(m, ids, M) && New(Table(r), anc, ids)
    requires Ahead(PackValue(h, Table(r), anc, ids), m, all, M, more) && Context(m, anc, ids, all, clean, shifted)
    ensures Right(h, all, m, ReadOne(m, M), Table(r), anc, |ids|, |PackValue(h, Table(r), anc, ids).ids|) <==>
            StraightValue(h, Table(r), anc, ids, clean, shifted)
    decreases Unseen(h, ids), 0, 1
  {
    hide GoodHeap, GoodIds, PackValue, PackValues, Unseen, ReadOne, ReadHash, ReadArray, Grew, Meant, Synced, PairValues, Ahead,
         Opened, ArrayOf, Slotted, OnlyKeys, Opens, New, Context, Loop, Made, StraightValue, StraightTable, StraightList,
         StraightPairs, KeysKnown, Inside, ElementsRight, ValuesRight, KeysRight, Image, Spoilt, Touches;
    var pa, pb, m0 := TableRead(h, all, M, r, anc, ids, m, more);
    HeapOf(m, ids, M);
    var inner, a := Inside(clean, shifted, |anc|), anc + [r];
    OpenContext(m, m0, r, anc, ids, all, clean, shifted);
    StraightNew(h, r, anc, ids, clean, shifted);
    StraightParts(h, r, a, ids + [r], inner, shifted, pa);
    ExactArray(h, all, M, ArrayFrom(h[r], 0), a, ids + [r], m0, 1, |ids| + 1, pb.toks + more, inner, shifted);
    var r1, k := ReadArray(m0, 1, h[r].border, M), |ids| + 1;
    if r1.Ok? && Spoilt(h, all, r1.value.heap, k) {
      SpoiltNotMade(h, all, r1.value.heap, k, k, |pa.ids|);
      if ReadOne(m, M).Ok? {
        FrameHash(Shallower(r1.value), k, M);
        TouchesBeyond(Shallower(r1.value), ReadOne(m, M).value, k);
        SpoiltOn(h, all, r1.value.heap, ReadOne(m, M).value.heap, k, k);
        SpoiltNotMade(h, all, ReadOne(m, M).value.heap, k, |ids|, |pb.ids|);
      }
    } else if r1.Ok? {
      var c := r1.value.heap[|ids|];
      GrewFacts(m0, r1.value, k, c, pa.ids, pb.toks + more, M);
      TableKnown(h, r);
      LoopContext(m0, r1.value, a, ids + [r], pa.ids, all, inner, shifted);
      ExactBody(h, all, M, r, a, ids, pa.ids, m0, Shallower(r1.value), more, inner, shifted);
    }
  }

  // The hash part of table r, and with it the table as a whole.
  lemma {:induction false} ExactBody(h: Heap, all: seq<nat>, M: set<nat>, r: nat, anc: seq<nat>, ids: seq<nat>, ids1: seq<nat>,
                                     m0: Memory, m: Memory, more: seq<Token>, clean: set<nat>, shifted: bool)
    requires Setting(h, all) && r in h && GoodIds(h, ids) && GoodIds(h, ids1) && ids + [r] <= ids1
    requires AllKnown(h, PairValues(HashPart(h[r], 0))) && NoNilKeys(HashPart(h[r], 0)) && |m0.heap| == |ids| + 1
    requires Synced(m, ids1, M) && OnTop(m, |ids| + 1) && Loop(m, anc, ids1, all, clean, shifted)
    requires Ahead(PackValues(h, PairValues(HashPart(h[r], 0)), anc, ids1), m, all, M, more)
    requires m.heap[|ids|] == ArrayOf(m0, anc, all, map[], 1, ArrayFrom(h[r], 0))
    ensures var q, ids2, pairs := ReadHash(m, M), PackValues(h, PairValues(HashPart(h[r], 0)), anc, ids1).ids, HashPart(h[r], 0);
      (ElementsRight(m0, ArrayFrom(h[r], 0), anc, all) && Made(h, all, m.heap, |ids| + 1, |ids1|) &&
       StraightPairs(h, pairs, anc, ids1, clean, shifted)) <==>
      (q.Ok? && Made(h, all, q.value.heap, |ids|, |ids2|))
    decreases Unseen(h, ids1), |HashPart(h[r], 0)| + 1, 3
  {
    hide GoodHeap, GoodIds, PackValues, Unseen, ReadHash, Grew, Meant, Synced, PairValues, Ahead, ArrayOf, NoNilKeys, Slotted,
         OnlyKeys, Context, Loop, Made, StraightPairs, Image, HashPart, ArrayFrom, ElementsRight, ValuesRight, KeysRight, Spoilt, Few,
         IsKey, Touches, KeysKnown;
    var t, pairs := h[r], HashPart(h[r], 0);
    HeapOf(m, ids1, M);
    SyncHash(h, all, M, pairs, anc, ids1, m, |ids| + 1, t.border, more);
    KeyContext(m, anc, ids1, all, clean, shifted);
    LoopIds(m, anc, ids1, all, clean, shifted);
    TableInStream(h, all, ids, r, ids1);
    HashDistinct(t, 0, all);
    AheadFacts(PackValues(h, PairValues(pairs), anc, ids1), m, all, M, more);
    var ids2 := PackValues(h, PairValues(pairs), anc, ids1).ids;
    var q := ReadHash(m, M);
    if StraightPairs(h, pairs, anc, ids1, clean, shifted) {
      LoopWithin(m, anc, ids1, all, clean, shifted);
      StraightKeys(h, pairs, anc, ids1, clean, shifted);
      SafeKeysRight(m, pairs, anc, ids1, all, clean);
    }
    if KeysRight(m, pairs, anc, all) {
      ExactHash(h, all, M, pairs, anc, ids1, m, |ids| + 1, more, clean, shifted);
      NoKeyIsNil(m, pairs, anc, all);
    }
    if q.Ok? {
      TouchesMore(m, q.value, |ids| + 1);
      var c := q.value.heap[|ids|];
      if Spoilt(h, all, q.value.heap, |m.heap|) {
        SpoiltNotMade(h, all, q.value.heap, |m.heap|, |ids1|, |ids2|);
        SpoiltNotMade(h, all, q.value.heap, |m.heap|, |ids|, |ids2|);
      } else if Few(m.heap[|ids|], c, t.border, |pairs|) && IsKey(m, pairs, anc, all, Nil) {
        FewIsWrong(h, all, ids, r, m0, anc, m, q.value);
        SpoiltNotMade(h, all, q.value.heap, |ids|, |ids|, |ids2|);
      } else {
        GrewFacts(m, q.value, |ids| + 1, c, ids2, more, M);
        AllInHeap(h, all);
        TableFilled(h, all, ids, r, ids1, ids2, m0, m, q.value, more, more, M);
        if c == Image(all, t.entries) { ImageIsRight(m0, m, c, t, anc, ids1, all, Beside(clean, anc)); }
        if KeysRight(m, pairs, anc, all) && ValuesRight(c, pairs, all) && ElementsRight(m0, ArrayFrom(t, 0), anc, all) {
          RightIsImage(m0, m, c, t, anc, all);
        }
      }
    }
  }

  lemma AheadFacts(p: Packed, m: Memory, all: seq<nat>, M: set<nat>, more: seq<Token>)
    requires Ahead(p, m, all, M, more)
    ensures p.Packed? && p.ids <= all
  {
  }

  lemma LoopWithin(m: Memory, anc: seq<nat>, ids: seq<nat>, all: seq<nat>, clean: set<nat>, shifted: bool)
    requires Loop(m, anc, ids, all, clean, shifted)
    ensures Within(anc, ids)
  {
  }

  lemma TableInStream(h: Heap, all: seq<nat>, ids: seq<nat>, r: nat, ids1: seq<nat>)
    requires KeysKnown(h, all) && GoodHeap(h) && ids + [r] <= ids1 <= all
    ensures r in h && GoodTab(h[r]) && KeysInStream(all, h[r])
  {
    assert (ids + [r])[|ids|] == r && r in ids + [r] && r in all;
  }

  // The reader gets a value right just when every reference by depth in it is
  // safe.
  lemma {:induction false} ExactValue(h: Heap, all: seq<nat>, M: set<nat>, v: Value, anc: seq<nat>, ids: seq<nat>, m: Memory,
                                      more: seq<Token>, clean: set<nat>, shifted: bool)
    requires Setting(h, all) && Known(h, v) && GoodIds(h, ids) && Synced(m, ids, M)
    requires Ahead(PackValue(h, v, anc, ids), m, all, M, more) && Context(m, anc, ids, all, clean, shifted)
    ensures Right(h, all, m, ReadOne(m, M), v, anc, |ids|, |PackValue(h, v, anc, ids).ids|) <==>
            StraightValue(h, v, anc, ids, clean, shifted)
    decreases Unseen(h, ids), 0, 2
  {
    hide GoodHeap, GoodIds, PackValue, Unseen, ReadOne, Synced, Ahead, Context, StraightValue, Right, KeysKnown;
    if New(v, anc, ids) {
      ExactTable(h, all, M, v.ref, anc, ids, m, more, clean, shifted);
    } else {
      ExactLeaf(h, all, M, v, anc, ids, m, more, clean, shifted);
    }
  }
}
