// When references by depth are safe. The writer keeps the path to the value it
// packs; the reader leaves a table's depth before it reads the table's hash
// keys. So in a key the reader is one level short, a reference to the table
// itself fails there, and a table that is itself a key is recorded in the place
// of the table it is a key of, which stays lost to the pairs that follow.
//
// `clean` are the depths whose place still holds the table the writer means,
// `shifted` says that the value is inside some hash key.
module SeriStraight {
  import opened SeriFormat
  import opened SeriPack

  // The value is a table met for the first time.
  predicate New(v: Value, anc: seq<nat>, ids: seq<nat>) {
    v.Table? && !ByAncestor(anc, v.ref) && v.ref !in ids
  }

  // ------------------------------------------------ the two parts of a table

  function PairValues(pairs: seq<Pair>): seq<Value> {
    Flatten(pairs) + [Nil]
  }

  lemma PairStretch(pairs: seq<Pair>)
    requires pairs != []
    ensures var vs := PairValues(pairs);
      |vs| >= 2 && vs[0] == pairs[0].key && vs[1..] != [] && vs[1..][0] == pairs[0].val && vs[1..][1..] == PairValues(pairs[1..])
  {
    assert PairValues(pairs) == [pairs[0].key, pairs[0].val] + PairValues(pairs[1..]);
  }

  lemma PairKnown(h: Heap, pairs: seq<Pair>)
    requires pairs != [] && AllKnown(h, PairValues(pairs))
    ensures Known(h, pairs[0].key) && Known(h, pairs[0].val) && AllKnown(h, PairValues(pairs[1..]))
  {
    var vs := PairValues(pairs);
    assert vs == [pairs[0].key, pairs[0].val] + PairValues(pairs[1..]);
    assert vs[0] in vs && vs[1] in vs;
  }

  predicate NoNilKeys(pairs: seq<Pair>) {
    forall e | e in pairs :: e.key != Nil
  }

  lemma TableKnown(h: Heap, r: nat)
    requires GoodHeap(h) && r in h
    ensures AllKnown(h, ArrayFrom(h[r], 0)) && AllKnown(h, PairValues(HashPart(h[r], 0))) && NoNilKeys(HashPart(h[r], 0))
    ensures Children(h[r]) == ArrayFrom(h[r], 0) + PairValues(HashPart(h[r], 0))
  {
    ChildrenKnown(h, r);
    HashKeys(h[r], 0);
  }

  // The pairs of the hash part are entries, and none of them in the array.
  lemma {:induction false} HashKeys(t: Tab, from: nat)
    requires from <= |t.entries|
    ensures forall e | e in HashPart(t, from) :: e in t.entries && !InArray(t, e.key)
    decreases |t.entries| - from
  {
    if from < |t.entries| { HashKeys(t, from + 1); }
  }

  // The stretches of a table's array part and hash part.
  lemma TablePacked(h: Heap, r: nat, anc: seq<nat>, ids: seq<nat>) returns (pa: Packed, pb: Packed)
    requires GoodHeap(h) && r in h && GoodIds(h, ids) && New(Table(r), anc, ids) && PackValue(h, Table(r), anc, ids).Packed?
    ensures GoodIds(h, ids + [r]) && Unseen(h, ids + [r]) < Unseen(h, ids)
    ensures AllKnown(h, ArrayFrom(h[r], 0)) && AllKnown(h, PairValues(HashPart(h[r], 0)))
    ensures pa == PackValues(h, ArrayFrom(h[r], 0), anc + [r], ids + [r]) && pa.Packed? && GoodIds(h, pa.ids)
    ensures Unseen(h, pa.ids) < Unseen(h, ids)
    ensures pb == PackValues(h, PairValues(HashPart(h[r], 0)), anc + [r], pa.ids) && pb.Packed?
    ensures ids + [r] <= pa.ids <= pb.ids
    ensures PackValue(h, Table(r), anc, ids) == Packed([Head(|ids| + 1, h[r].border)] + (pa.toks + pb.toks), pb.ids)
  {
    hide GoodHeap, GoodIds, PackValue, PackValues, Unseen;
    var body := PackNewTable(h, r, anc, ids);
    TableKnown(h, r);
    PackConcat(h, ArrayFrom(h[r], 0), PairValues(HashPart(h[r], 0)), anc + [r], ids + [r]);
    pa := PackValues(h, ArrayFrom(h[r], 0), anc + [r], ids + [r]);
    pb := PackValues(h, PairValues(HashPart(h[r], 0)), anc + [r], pa.ids);
    UnseenMonotone(h, ids + [r], pa.ids);
  }

  // The stretches of a pair and of the pairs after it.
  lemma PairPacked(h: Heap, pairs: seq<Pair>, anc: seq<nat>, ids: seq<nat>) returns (p: Packed, q: Packed)
    requires GoodHeap(h) && AllKnown(h, PairValues(pairs)) && GoodIds(h, ids) && pairs != []
    requires PackValues(h, PairValues(pairs), anc, ids).Packed?
    ensures Known(h, pairs[0].key) && Known(h, pairs[0].val) && AllKnown(h, PairValues(pairs[1..]))
    ensures p == PackValue(h, pairs[0].key, anc, ids) && p.Packed? && GoodIds(h, p.ids)
    ensures q == PackValue(h, pairs[0].val, anc, p.ids) && q.Packed? && GoodIds(h, q.ids)
    ensures PackValues(h, PairValues(pairs[1..]), anc, q.ids).Packed?
    ensures ids <= p.ids <= q.ids <= PackValues(h, PairValues(pairs[1..]), anc, q.ids).ids == PackValues(h, PairValues(pairs), anc, ids).ids
    ensures Unseen(h, q.ids) <= Unseen(h, p.ids) <= Unseen(h, ids)
  {
    hide GoodHeap, GoodIds, PackValue, PackValues, Unseen, PairValues;
    PairKnown(h, pairs);
    PairStretch(pairs);
    var r, s: Packed;
    p, r := PackList(h, PairValues(pairs), anc, ids);
    q, s := PackList(h, PairValues(pairs)[1..], anc, p.ids);
  }

  // ------------------------------------------------------------- the condition

  function Inside(clean: set<nat>, shifted: bool, depth: nat): set<nat> {
    if shifted then clean else clean + {depth}
  }

  // A key cannot refer to its own table by depth ...
  function Beside(clean: set<nat>, anc: seq<nat>): set<nat> {
    clean - {|anc| - 1}
  }

  // ... and nor can what follows a key that opens a table.
  function After(clean: set<nat>, anc: seq<nat>, ids: seq<nat>, key: Value): set<nat> {
    if New(key, anc, ids) then Beside(clean, anc) else clean
  }

  ghost predicate StraightValue(h: Heap, v: Value, anc: seq<nat>, ids: seq<nat>, clean: set<nat>, shifted: bool)
    requires GoodHeap(h) && Known(h, v) && GoodIds(h, ids)
    decreases Unseen(h, ids), 0
  {
    if New(v, anc, ids) then
      UnseenShrinks(h, ids, v.ref);
      StraightTable(h, v.ref, anc + [v.ref], ids + [v.ref], Inside(clean, shifted, |anc|), shifted)
    else v.Table? && ByAncestor(anc, v.ref) ==> IndexOf(anc, v.ref) in clean
  }

  ghost predicate StraightTable(h: Heap, r: nat, anc: seq<nat>, ids: seq<nat>, clean: set<nat>, shifted: bool)
    requires GoodHeap(h) && r in h && GoodIds(h, ids)
    decreases Unseen(h, ids), |ArrayFrom(h[r], 0)| + |HashPart(h[r], 0)| + 2
  {
    TableKnown(h, r);
    var a, pairs := ArrayFrom(h[r], 0), HashPart(h[r], 0);
    var p := PackValues(h, a, anc, ids);
    StraightList(h, a, anc, ids, clean, shifted) &&
    (p.Packed? ==> (UnseenMonotone(h, ids, p.ids); StraightPairs(h, pairs, anc, p.ids, clean, shifted)))
  }

  ghost predicate StraightList(h: Heap, vs: seq<Value>, anc: seq<nat>, ids: seq<nat>, clean: set<nat>, shifted: bool)
    requires GoodHeap(h) && AllKnown(h, vs) && GoodIds(h, ids)
    decreases Unseen(h, ids), |vs| + 1
  {
    vs == [] ||
    (assert vs[0] in vs;
     var p := PackValue(h, vs[0], anc, ids);
     StraightValue(h, vs[0], anc, ids, clean, shifted) &&
     (p.Packed? ==> (UnseenMonotone(h, ids, p.ids); StraightList(h, vs[1..], anc, p.ids, clean, shifted))))
  }

  ghost predicate StraightPairs(h: Heap, pairs: seq<Pair>, anc: seq<nat>, ids: seq<nat>, clean: set<nat>, shifted: bool)
    requires GoodHeap(h) && AllKnown(h, PairValues(pairs)) && GoodIds(h, ids)
    decreases Unseen(h, ids), |pairs| + 1
  {
    pairs == [] ||
    (PairKnown(h, pairs);
     var key, val, rest := pairs[0].key, pairs[0].val, After(clean, anc, ids, pairs[0].key);
     var p := PackValue(h, key, anc, ids);
     StraightValue(h, key, anc, ids, Beside(clean, anc), true) &&
     (p.Packed? ==>
       (UnseenMonotone(h, ids, p.ids);
        var q := PackValue(h, val, anc, p.ids);
        StraightValue(h, val, anc, p.ids, rest, shifted) &&
        (q.Packed? ==> (UnseenMonotone(h, p.ids, q.ids); StraightPairs(h, pairs[1..], anc, q.ids, rest, shifted))))))
  }

  lemma StraightNew(h: Heap, r: nat, anc: seq<nat>, ids: seq<nat>, clean: set<nat>, shifted: bool)
    requires GoodHeap(h) && r in h && GoodIds(h, ids) && New(Table(r), anc, ids) && GoodIds(h, ids + [r])
    ensures StraightValue(h, Table(r), anc, ids, clean, shifted) ==
      StraightTable(h, r, anc + [r], ids + [r], Inside(clean, shifted, |anc|), shifted)
  {
    hide StraightTable;
  }

  lemma StraightParts(h: Heap, r: nat, anc: seq<nat>, ids: seq<nat>, clean: set<nat>, shifted: bool, pa: Packed)
    requires GoodHeap(h) && r in h && GoodIds(h, ids) && AllKnown(h, ArrayFrom(h[r], 0)) && AllKnown(h, PairValues(HashPart(h[r], 0)))
    requires pa == PackValues(h, ArrayFrom(h[r], 0), anc, ids) && pa.Packed? && GoodIds(h, pa.ids)
    ensures StraightTable(h, r, anc, ids, clean, shifted) <==>
      StraightList(h, ArrayFrom(h[r], 0), anc, ids, clean, shifted) && StraightPairs(h, HashPart(h[r], 0), anc, pa.ids, clean, shifted)
  {
    hide StraightList, StraightPairs;
  }

  lemma StraightListParts(h: Heap, vs: seq<Value>, anc: seq<nat>, ids: seq<nat>, clean: set<nat>, shifted: bool, p: Packed)
    requires GoodHeap(h) && AllKnown(h, vs) && GoodIds(h, ids) && vs != [] && Known(h, vs[0]) && AllKnown(h, vs[1..])
    requires p == PackValue(h, vs[0], anc, ids) && p.Packed? && GoodIds(h, p.ids)
    ensures StraightList(h, vs, anc, ids, clean, shifted) <==>
      StraightValue(h, vs[0], anc, ids, clean, shifted) && StraightList(h, vs[1..], anc, p.ids, clean, shifted)
  {
    hide StraightValue, GoodHeap, GoodIds, PackValue;
  }

  lemma StraightPairsParts(h: Heap, pairs: seq<Pair>, anc: seq<nat>, ids: seq<nat>, clean: set<nat>, shifted: bool, p: Packed, q: Packed)
    requires GoodHeap(h) && AllKnown(h, PairValues(pairs)) && GoodIds(h, ids) && pairs != []
    requires Known(h, pairs[0].key) && Known(h, pairs[0].val) && AllKnown(h, PairValues(pairs[1..]))
    requires p == PackValue(h, pairs[0].key, anc, ids) && p.Packed? && GoodIds(h, p.ids)
    requires q == PackValue(h, pairs[0].val, anc, p.ids) && q.Packed? && GoodIds(h, q.ids)
    ensures var after := After(clean, anc, ids, pairs[0].key);
      StraightPairs(h, pairs, anc, ids, clean, shifted) <==>
      StraightValue(h, pairs[0].key, anc, ids, Beside(clean, anc), true) &&
      StraightValue(h, pairs[0].val, anc, p.ids, after, shifted) && StraightPairs(h, pairs[1..], anc, q.ids, after, shifted)
  {
    hide StraightValue, GoodHeap, GoodIds, PackValue, PairValues, After, Beside;
  }

  // Every reference by depth in the stream for vs is safe.
  ghost predicate Straight(h: Heap, vs: seq<Value>)
    requires GoodHeap(h) && AllKnown(h, vs)
  {
    StraightList(h, vs, [], [], {}, false)
  }
}
