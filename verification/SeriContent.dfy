// A table read back holds what it should just when every key, element and
// value of it was read right.
module SeriContent {
  import opened SeriFormat
  import opened SeriPack
  import opened SeriUnpack
  import opened SeriTokens
  import opened SeriFrame
  import opened SeriImage
  import opened SeriStraight
  import opened SeriSync
  import opened SeriContext

  predicate ElementsRight(m: Memory, vs: seq<Value>, anc: seq<nat>, all: seq<nat>) {
    forall i | 0 <= i < |vs| :: Meant(m, vs[i], anc, all) == Rename(all, vs[i])
  }

  predicate KeysRight(m: Memory, pairs: seq<Pair>, anc: seq<nat>, all: seq<nat>) {
    forall e | e in pairs :: Meant(m, e.key, anc, all) == Rename(all, e.key)
  }

  predicate ValuesRight(c: Content, pairs: seq<Pair>, all: seq<nat>) {
    forall e | e in pairs :: Lookup(c, Rename(all, e.key)) == Rename(all, e.val)
  }

  // ---------------------------------------------------------------- the array part

  lemma {:induction false} ArrayAt(t: Tab, from: nat, i: nat)
    requires from <= t.border && i < t.border - from
    ensures ArrayFrom(t, from)[i] == Get(t.entries, Int(from + i + 1))
    decreases t.border - from
  {
    if i > 0 { ArrayAt(t, from + 1, i - 1); }
  }

  // The elements are under 1, 2, ..., and nothing else is.
  lemma {:induction false} ArrayLookup(m: Memory, anc: seq<nat>, all: seq<nat>, c: Content, i: nat, vs: seq<Value>, x: Value)
    requires i + |vs| <= MAX_SIZE
    ensures Lookup(ArrayOf(m, anc, all, c, i, vs), x) ==
      if x.Int? && i <= x.i < i + |vs| then Meant(m, vs[x.i - i], anc, all) else Lookup(c, x)
    decreases |vs|
  {
    hide Meant;
    if vs != [] { ArrayLookup(m, anc, all, Assign(c, Int(i), Meant(m, vs[0], anc, all)), i + 1, vs[1..], x); }
  }

  // ------------------------------------------------------------------ the whole image

  lemma ImageGet(all: seq<nat>, t: Tab, key: Value)
    requires GoodTab(t) && KeysInStream(all, t) && InStream(all, key)
    ensures Lookup(Image(all, t.entries), Rename(all, key)) == Rename(all, Get(t.entries, key))
  {
    if i :| 0 <= i < |t.entries| && t.entries[i].key == key {
      ImageHas(all, t.entries, i);
      GetEntry(t.entries, i);
    } else {
      GetMissing(t.entries, key);
      if Rename(all, key) in Image(all, t.entries) {
        ImageOnly(all, t.entries, Rename(all, key));
        var i :| 0 <= i < |t.entries| && Rename(all, t.entries[i].key) == Rename(all, key);
        RenameInjective(all, t.entries[i].key, key);
      }
    }
  }

  // A hash key's entry.
  lemma PairEntry(all: seq<nat>, t: Tab, e: Pair)
    requires GoodTab(t) && KeysInStream(all, t) && e in HashPart(t, 0)
    ensures InStream(all, e.key) && !InArray(t, e.key) && Get(t.entries, e.key) == e.val && e.key != Nil
    ensures ImageKey(all, t.entries, Rename(all, e.key)) && e in t.entries
  {
    HashKeys(t, 0);
    var i :| 0 <= i < |t.entries| && t.entries[i] == e;
    GetEntry(t.entries, i);
  }

  // c is what was read into table k: its array part gave c1, and the pairs
  // changed what is under their keys.
  ghost predicate ReadInto(m: Memory, c1: Content, c: Content, t: Tab, anc: seq<nat>, all: seq<nat>) {
    GoodTab(t) && KeysInStream(all, t) && OnlyKeys(c1, c, m, HashPart(t, 0), anc, all)
  }

  // An element is where it was put, as long as no pair has its index for a key.
  lemma ElementStays(m: Memory, c1: Content, c: Content, t: Tab, anc: seq<nat>, all: seq<nat>, n: int64)
    requires ReadInto(m, c1, c, t, anc, all) && KeysRight(m, HashPart(t, 0), anc, all) && 0 < n <= t.border
    ensures Lookup(c, Int(n)) == Lookup(c1, Int(n))
  {
    hide Meant;
    if IsKey(m, HashPart(t, 0), anc, all, Int(n)) {
      var e :| e in HashPart(t, 0) && Meant(m, e.key, anc, all) == Int(n);
      PairEntry(all, t, e);
    }
  }

  // Everything read right makes the image ...
  lemma RightIsImage(m0: Memory, m: Memory, c: Content, t: Tab, anc: seq<nat>, all: seq<nat>)
    requires ReadInto(m, ArrayOf(m0, anc, all, map[], 1, ArrayFrom(t, 0)), c, t, anc, all)
    requires ElementsRight(m0, ArrayFrom(t, 0), anc, all) && KeysRight(m, HashPart(t, 0), anc, all) && ValuesRight(c, HashPart(t, 0), all)
    ensures c == Image(all, t.entries)
  {
    hide Meant, ArrayFrom, ArrayOf, HashPart, Rename, Image;
    forall i | 0 <= i < |t.entries|
      ensures Lookup(c, Rename(all, t.entries[i].key)) == Rename(all, t.entries[i].val)
    {
      RightEntry(m0, m, c, t, anc, all, i);
    }
    forall x | x in c ensures ImageKey(all, t.entries, x) {
      RightKey(m0, m, c, t, anc, all, x);
    }
    IsImage(all, t, c);
  }

  lemma {:induction false} EntryInHash(t: Tab, from: nat, i: nat)
    requires from <= i < |t.entries| && !InArray(t, t.entries[i].key)
    ensures t.entries[i] in HashPart(t, from)
    decreases |t.entries| - from
  {
    if i > from { EntryInHash(t, from + 1, i); }
  }

  lemma RightEntry(m0: Memory, m: Memory, c: Content, t: Tab, anc: seq<nat>, all: seq<nat>, i: nat)
    requires ReadInto(m, ArrayOf(m0, anc, all, map[], 1, ArrayFrom(t, 0)), c, t, anc, all) && i < |t.entries|
    requires ElementsRight(m0, ArrayFrom(t, 0), anc, all) && KeysRight(m, HashPart(t, 0), anc, all) && ValuesRight(c, HashPart(t, 0), all)
    ensures Lookup(c, Rename(all, t.entries[i].key)) == Rename(all, t.entries[i].val)
  {
    hide Meant, ArrayFrom, ArrayOf, HashPart, OnlyKeys;
    var key := t.entries[i].key;
    if InArray(t, key) {
      ElementStays(m, ArrayOf(m0, anc, all, map[], 1, ArrayFrom(t, 0)), c, t, anc, all, key.i);
      ArrayLookup(m0, anc, all, map[], 1, ArrayFrom(t, 0), key);
      ArrayAt(t, 0, key.i - 1);
      GetEntry(t.entries, i);
    } else {
      EntryInHash(t, 0, i);
    }
  }

  lemma RightKey(m0: Memory, m: Memory, c: Content, t: Tab, anc: seq<nat>, all: seq<nat>, x: Value)
    requires ReadInto(m, ArrayOf(m0, anc, all, map[], 1, ArrayFrom(t, 0)), c, t, anc, all) && x in c
    requires ElementsRight(m0, ArrayFrom(t, 0), anc, all) && KeysRight(m, HashPart(t, 0), anc, all)
    ensures ImageKey(all, t.entries, x)
  {
    hide Meant, ArrayFrom, ArrayOf, HashPart;
    if IsKey(m, HashPart(t, 0), anc, all, x) {
      var e :| e in HashPart(t, 0) && Meant(m, e.key, anc, all) == x;
      PairEntry(all, t, e);
    } else {
      var c1 := ArrayOf(m0, anc, all, map[], 1, ArrayFrom(t, 0));
      ArrayKeys(m0, anc, all, map[], 1, ArrayFrom(t, 0), x);
      ArrayLookup(m0, anc, all, map[], 1, ArrayFrom(t, 0), x);
      ArrayAt(t, 0, x.i - 1);
      if forall i | 0 <= i < |t.entries| :: t.entries[i].key != x {
        GetMissing(t.entries, x);
        assert false;
      }
      var i :| 0 <= i < |t.entries| && t.entries[i].key == x;
      assert Rename(all, t.entries[i].key) == x;
    }
  }

  // ... and nothing else does: the image has every key, and what is misread is
  // no table of the same depth or a lower one.
  lemma {:induction false} ImageKeyRight(m: Memory, c1: Content, c: Content, t: Tab, anc: seq<nat>, ids: seq<nat>, all: seq<nat>,
                                         clean: set<nat>, e: Pair)
    requires ReadInto(m, c1, c, t, anc, all) && c == Image(all, t.entries) && e in HashPart(t, 0)
    requires Context(m, anc, ids, all, clean, true) && forall x | x in c1 :: x.Int?
    ensures Meant(m, e.key, anc, all) == Rename(all, e.key)
    decreases if e.key.Table? && ByAncestor(anc, e.key.ref) then IndexOf(anc, e.key.ref) + 1 else 0
  {
    hide Meant, HashPart, Context, Image, Rename;
    PairEntry(all, t, e);
    if !(e.key.Table? && ByAncestor(anc, e.key.ref)) {
      PlainMeant(m, e.key, anc, all);
    } else if IndexOf(anc, e.key.ref) in clean {
      SafeMeant(m, e.key, anc, ids, all, clean, true);
    } else {
      var f := WhoseKey(m, c1, c, t, anc, all, e);
      PairEntry(all, t, f);
      if f.key.Table? && ByAncestor(anc, f.key.ref) && IndexOf(anc, f.key.ref) in clean {
        SafeMeant(m, f.key, anc, ids, all, clean, true);
        RenameInjective(all, f.key, e.key);
      } else if f.key.Table? && ByAncestor(anc, f.key.ref) && IndexOf(anc, f.key.ref) >= IndexOf(anc, e.key.ref) {
        UnsafeMeant(m, f.key, e.key, anc, ids, all, clean, true);
      } else {
        ImageKeyRight(m, c1, c, t, anc, ids, all, clean, f);
        RenameInjective(all, f.key, e.key);
      }
    }
  }

  lemma PlainMeant(m: Memory, v: Value, anc: seq<nat>, all: seq<nat>)
    requires !(v.Table? && ByAncestor(anc, v.ref))
    ensures Meant(m, v, anc, all) == Rename(all, v)
  {
  }

  // Some pair was read with the key of e.
  lemma WhoseKey(m: Memory, c1: Content, c: Content, t: Tab, anc: seq<nat>, all: seq<nat>, e: Pair) returns (f: Pair)
    requires ReadInto(m, c1, c, t, anc, all) && c == Image(all, t.entries) && e in HashPart(t, 0)
    requires e.key.Table? && forall x | x in c1 :: x.Int?
    ensures f in HashPart(t, 0) && Meant(m, f.key, anc, all) == Rename(all, e.key)
  {
    hide Meant, HashPart, Image;
    PairEntry(all, t, e);
    var i :| 0 <= i < |t.entries| && t.entries[i] == e;
    ImageHas(all, t.entries, i);
    assert IsKey(m, HashPart(t, 0), anc, all, Rename(all, e.key));
    f :| f in HashPart(t, 0) && Meant(m, f.key, anc, all) == Rename(all, e.key);
  }

  lemma ImageIsRight(m0: Memory, m: Memory, c: Content, t: Tab, anc: seq<nat>, ids: seq<nat>, all: seq<nat>, clean: set<nat>)
    requires ReadInto(m, ArrayOf(m0, anc, all, map[], 1, ArrayFrom(t, 0)), c, t, anc, all) && c == Image(all, t.entries)
    requires Context(m, anc, ids, all, clean, true)
    ensures KeysRight(m, HashPart(t, 0), anc, all) && ValuesRight(c, HashPart(t, 0), all)
    ensures ElementsRight(m0, ArrayFrom(t, 0), anc, all)
  {
    hide Meant, HashPart, ArrayOf, ArrayFrom, Context, OnlyKeys, Image;
    var c1 := ArrayOf(m0, anc, all, map[], 1, ArrayFrom(t, 0));
    forall x | x in c1 ensures x.Int? { ArrayKeys(m0, anc, all, map[], 1, ArrayFrom(t, 0), x); }
    forall e | e in HashPart(t, 0)
      ensures Meant(m, e.key, anc, all) == Rename(all, e.key) && Lookup(c, Rename(all, e.key)) == Rename(all, e.val)
    {
      PairEntry(all, t, e);
      ImageGet(all, t, e.key);
      ImageKeyRight(m, c1, c, t, anc, ids, all, clean, e);
    }
    forall i | 0 <= i < t.border ensures Meant(m0, ArrayFrom(t, 0)[i], anc, all) == Rename(all, ArrayFrom(t, 0)[i]) {
      ElementStays(m, c1, c, t, anc, all, i + 1);
      ArrayLookup(m0, anc, all, map[], 1, ArrayFrom(t, 0), Int(i + 1));
      ImageGet(all, t, Int(i + 1));
      ArrayAt(t, 0, i);
    }
  }
}
