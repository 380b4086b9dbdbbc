// The same graph on the other side: table all[k] becomes table k + 1, where
// `all` lists the tables of the whole stream in preorder.
module SeriImage {
  import opened SeriFormat
  import opened SeriPack
  import opened SeriUnpack

  function Rename(all: seq<nat>, v: Value): Value {
    if v.Table? && v.ref in all then Table(IndexOf(all, v.ref) + 1) else v
  }

  // A table with keys and values renamed.
  function Image(all: seq<nat>, entries: seq<Pair>): Content {
    if entries == [] then map[]
    else
      var last := entries[|entries| - 1];
      Image(all, entries[..|entries| - 1])[Rename(all, last.key) := Rename(all, last.val)]
  }

  function Images(h: Heap, all: seq<nat>, from: nat, to: nat): (r: seq<Content>)
    requires from <= to <= |all| && forall x | x in all :: x in h
    ensures |r| == to - from
  {
    seq(to - from, k requires 0 <= k < to - from => assert all[from + k] in all; Image(all, h[all[from + k]].entries))
  }

  lemma ImagesSplit(h: Heap, all: seq<nat>, a: nat, b: nat, c: nat)
    requires a <= b <= c <= |all| && forall x | x in all :: x in h
    ensures Images(h, all, a, c) == Images(h, all, a, b) + Images(h, all, b, c)
  {
  }

  function MarkedUpTo(M: set<nat>, n: nat): set<nat> {
    set k | k in M && 0 < k <= n
  }

  predicate Within(anc: seq<nat>, ids: seq<nat>) {
    forall r | r in anc :: r in ids
  }

  // lua_rawget on the other side
  function Lookup(c: Content, key: Value): Value {
    if key in c then c[key] else Nil
  }

  // The value is no table, or one that the stream has.
  predicate InStream(all: seq<nat>, v: Value) {
    v.Table? ==> v.ref in all
  }

  lemma {:induction false} IndexInPrefix(ids: seq<nat>, all: seq<nat>, r: nat)
    requires ids <= all && r in ids
    ensures r in all && IndexOf(all, r) == IndexOf(ids, r)
  {
    if ids[0] != r { IndexInPrefix(ids[1..], all[1..], r); }
  }

  lemma IndexAt(all: seq<nat>, k: nat)
    requires Distinct(all) && k < |all|
    ensures all[k] in all && IndexOf(all, all[k]) == k
  {
    var i := IndexOf(all, all[k]);
    assert all[i] == all[k];
  }

  // A table keeps the number it got when it was recorded.
  lemma NewName(all: seq<nat>, ids: seq<nat>, r: nat)
    requires ids + [r] <= all && r !in ids
    ensures Rename(all, Table(r)) == Table(|ids| + 1)
  {
    assert (ids + [r])[|ids|] == r && r in ids + [r];
    IndexInPrefix(ids + [r], all, r);
    forall j | 0 <= j < |ids| ensures (ids + [r])[j] != r { assert ids[j] in ids; }
  }

  lemma OldName(all: seq<nat>, ids: seq<nat>, r: nat)
    requires ids <= all && r in ids
    ensures var w := Rename(all, Table(r)); w.Table? && 0 < w.ref <= |ids|
  {
    IndexInPrefix(ids, all, r);
  }

  lemma RenameInjective(all: seq<nat>, v: Value, w: Value)
    requires InStream(all, v) && InStream(all, w) && Rename(all, v) == Rename(all, w)
    ensures v == w
  {
  }

  lemma {:induction false} GetEntry(entries: seq<Pair>, i: nat)
    requires i < |entries|
    requires forall i, j | 0 <= i < j < |entries| :: entries[i].key != entries[j].key
    ensures Get(entries, entries[i].key) == entries[i].val
  {
    if i < |entries| - 1 { GetEntry(entries[..|entries| - 1], i); }
  }

  lemma {:induction false} GetMissing(entries: seq<Pair>, key: Value)
    requires forall i | 0 <= i < |entries| :: entries[i].key != key
    ensures Get(entries, key) == Nil
  {
    if entries != [] { GetMissing(entries[..|entries| - 1], key); }
  }

  // What the image of a table holds.
  lemma {:induction false} ImageHas(all: seq<nat>, entries: seq<Pair>, i: nat)
    requires i < |entries| && forall j | 0 <= j < |entries| :: InStream(all, entries[j].key)
    requires forall i, j | 0 <= i < j < |entries| :: entries[i].key != entries[j].key
    ensures Rename(all, entries[i].key) in Image(all, entries)
    ensures Image(all, entries)[Rename(all, entries[i].key)] == Rename(all, entries[i].val)
  {
    var last := entries[|entries| - 1];
    if i < |entries| - 1 {
      ImageHas(all, entries[..|entries| - 1], i);
      if Rename(all, last.key) == Rename(all, entries[i].key) { RenameInjective(all, last.key, entries[i].key); }
    }
  }

  predicate ImageKey(all: seq<nat>, entries: seq<Pair>, x: Value) {
    exists i :: 0 <= i < |entries| && Rename(all, entries[i].key) == x
  }

  lemma {:induction false} ImageOnly(all: seq<nat>, entries: seq<Pair>, x: Value)
    requires x in Image(all, entries)
    ensures ImageKey(all, entries, x)
  {
    var front, last := entries[..|entries| - 1], entries[|entries| - 1];
    if x != Rename(all, last.key) {
      ImageOnly(all, front, x);
      var i :| 0 <= i < |front| && Rename(all, front[i].key) == x;
      assert entries[i] == front[i];
    } else {
      assert Rename(all, entries[|entries| - 1].key) == x;
    }
  }

  // Content that has the right values at the right keys is the image.
  lemma IsImage(all: seq<nat>, t: Tab, c: Content)
    requires GoodTab(t) && forall i | 0 <= i < |t.entries| :: InStream(all, t.entries[i].key)
    requires forall i | 0 <= i < |t.entries| :: Lookup(c, Rename(all, t.entries[i].key)) == Rename(all, t.entries[i].val)
    requires forall x | x in c :: ImageKey(all, t.entries, x)
    ensures c == Image(all, t.entries)
  {
    var d := Image(all, t.entries);
    forall x
      ensures x in c <==> x in d
      ensures x in c ==> c[x] == d[x]
    {
      if x in d { ImageOnly(all, t.entries, x); }
      if i :| 0 <= i < |t.entries| && Rename(all, t.entries[i].key) == x { ImageHas(all, t.entries, i); }
    }
  }

  // The keys of a table are no tables, or tables of the stream.
  predicate KeysInStream(all: seq<nat>, t: Tab) {
    forall i | 0 <= i < |t.entries| :: InStream(all, t.entries[i].key)
  }

  ghost predicate KeysKnown(h: Heap, all: seq<nat>) {
    forall r | r in all :: r in h && KeysInStream(all, h[r])
  }
}
