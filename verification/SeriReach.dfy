// Which tables a packed stream contains: exactly the reachable ones, each
// once, in preorder, and only ever referred to backwards.
module SeriReach {
  import opened SeriFormat
  import opened SeriPack
  import opened SeriImage

  // ------------------------------------------------------------ reachability

  predicate Edge(h: Heap, a: nat, b: Value)
    requires a in h
  {
    exists i | 0 <= i < |h[a].entries| :: h[a].entries[i].key == b || h[a].entries[i].val == b
  }

  ghost predicate Path(h: Heap, vs: seq<Value>, path: seq<nat>) {
    && path != [] && Table(path[0]) in vs
    && (forall i | 0 <= i < |path| :: path[i] in h)
    && (forall i | 0 <= i < |path| - 1 :: Edge(h, path[i], Table(path[i + 1])))
  }

  // There is a chain of tables from one of the values to r.
  ghost predicate Reachable(h: Heap, vs: seq<Value>, r: nat) {
    exists path :: Path(h, vs, path) && path[|path| - 1] == r
  }

  // A value pack refuses is among the values or in a reachable table.
  ghost predicate ReachesOther(h: Heap, vs: seq<Value>) {
    Other in vs || exists r :: Reachable(h, vs, r) && r in h && Edge(h, r, Other)
  }

  lemma {:induction false} GetOf(entries: seq<Pair>, key: Value)
    ensures Get(entries, key) == Nil || exists i | 0 <= i < |entries| :: entries[i].val == Get(entries, key)
  {
    if entries != [] && entries[|entries| - 1].key != key {
      GetOf(entries[..|entries| - 1], key);
    }
  }

  lemma {:induction false} ArrayValue(t: Tab, from: nat, v: Value)
    requires from <= t.border && v in ArrayFrom(t, from)
    ensures v == Nil || exists i | 0 <= i < |t.entries| :: t.entries[i].val == v
    decreases t.border - from
  {
    if from < t.border {
      GetOf(t.entries, Int(from + 1));
      if v != Get(t.entries, Int(from + 1)) { ArrayValue(t, from + 1, v); }
    }
  }

  lemma {:induction false} HashValue(t: Tab, from: nat, v: Value)
    requires from <= |t.entries| && v in Flatten(HashPart(t, from))
    ensures exists i | 0 <= i < |t.entries| :: t.entries[i].key == v || t.entries[i].val == v
    decreases |t.entries| - from
  {
    if from < |t.entries| {
      var e, rest := t.entries[from], HashPart(t, from + 1);
      if InArray(t, e.key) {
        assert HashPart(t, from) == rest;
        HashValue(t, from + 1, v);
      } else {
        assert HashPart(t, from)[1..] == rest;
        if v != e.key && v != e.val { HashValue(t, from + 1, v); }
      }
    }
  }

  // Children are entries of the table ...
  lemma ChildIsEntry(h: Heap, r: nat, v: Value)
    requires r in h && v in Children(h[r]) && v != Nil
    ensures Edge(h, r, v)
  {
    var t := h[r];
    if v in ArrayFrom(t, 0) {
      ArrayValue(t, 0, v);
    } else {
      assert v in Flatten(HashPart(t, 0));
      HashValue(t, 0, v);
    }
  }

  lemma {:induction false} ArrayHas(t: Tab, from: nat, k: nat)
    requires from < k <= t.border
    ensures Get(t.entries, Int(k)) in ArrayFrom(t, from)
    decreases t.border - from
  {
    if k > from + 1 { ArrayHas(t, from + 1, k); }
  }

  lemma {:induction false} HashHas(t: Tab, from: nat, i: nat)
    requires from <= i < |t.entries| && !InArray(t, t.entries[i].key)
    ensures t.entries[i].key in Flatten(HashPart(t, from)) && t.entries[i].val in Flatten(HashPart(t, from))
    decreases |t.entries| - from
  {
    hide HashPart, Flatten, InArray;
    HashPartUnfold(t, from);
    if i > from { HashHas(t, from + 1, i); }
  }

  // ... and every entry is among the children.
  lemma EntryIsChild(h: Heap, r: nat, v: Value)
    requires r in h && GoodTab(h[r]) && Edge(h, r, v) && !v.Int?
    ensures v in Children(h[r])
  {
    var t := h[r];
    var i :| 0 <= i < |t.entries| && (t.entries[i].key == v || t.entries[i].val == v);
    if InArray(t, t.entries[i].key) {
      GetEntry(t.entries, i);
      ArrayHas(t, 0, t.entries[i].key.i);
    } else {
      HashHas(t, 0, i);
    }
  }

  // -------------------------------------------------------------- completeness

  // v can be written down once the tables in ids are.
  predicate Covered(v: Value, ids: seq<nat>) {
    v != Other && (v.Table? ==> v.ref in ids)
  }

  predicate AllCovered(vs: seq<Value>, ids: seq<nat>) {
    forall v | v in vs :: Covered(v, ids)
  }

  // Everything inside the tables added since `ids` is covered.
  ghost predicate ClosedSince(h: Heap, ids: seq<nat>, ids': seq<nat>) {
    forall r | r in ids' && r !in ids :: r in h && AllCovered(Children(h[r]), ids')
  }

  lemma CoveredGrows(h: Heap, a: seq<nat>, b: seq<nat>, c: seq<nat>)
    requires a <= b <= c && ClosedSince(h, a, b) && ClosedSince(h, b, c)
    ensures ClosedSince(h, a, c)
  {
    forall r | r in c && r !in a ensures r in h && AllCovered(Children(h[r]), c) {
      if r in b { assert forall v | v in Children(h[r]) :: Covered(v, b); }
    }
  }

  lemma {:induction false} CompleteValue(h: Heap, v: Value, anc: seq<nat>, ids: seq<nat>)
    requires GoodHeap(h) && Known(h, v) && GoodIds(h, ids) && Within(anc, ids)
    requires PackValue(h, v, anc, ids).Packed?
    ensures var p := PackValue(h, v, anc, ids); Covered(v, p.ids) && ClosedSince(h, ids, p.ids)
    decreases Unseen(h, ids), 0
  {
    hide GoodHeap, PackValues, Children, Unseen;
    if v.Table? && !ByAncestor(anc, v.ref) && v.ref !in ids {
      var r := v.ref;
      var body := PackNewTable(h, r, anc, ids);
      CompleteValues(h, Children(h[r]), anc + [r], ids + [r]);
      assert body.ids[|ids|] == (ids + [r])[|ids|];
    }
  }

  lemma {:induction false} CompleteValues(h: Heap, vs: seq<Value>, anc: seq<nat>, ids: seq<nat>)
    requires GoodHeap(h) && AllKnown(h, vs) && GoodIds(h, ids) && Within(anc, ids)
    requires PackValues(h, vs, anc, ids).Packed?
    ensures var p := PackValues(h, vs, anc, ids); AllCovered(vs, p.ids) && ClosedSince(h, ids, p.ids)
    decreases Unseen(h, ids), |vs|
  {
    hide GoodHeap, PackValue, Children, Unseen;
    if vs != [] {
      var p, q := PackList(h, vs, anc, ids);
      CompleteValue(h, vs[0], anc, ids);
      CompleteValues(h, vs[1..], anc, p.ids);
      CoveredGrows(h, ids, p.ids, q.ids);
      assert vs == [vs[0]] + vs[1..];
    }
  }

  // A closed list that covers the roots covers everything reachable.
  lemma {:induction false} PathCovered(h: Heap, vs: seq<Value>, ids: seq<nat>, path: seq<nat>)
    requires GoodHeap(h) && AllCovered(vs, ids) && ClosedSince(h, [], ids) && Path(h, vs, path)
    ensures path[|path| - 1] in ids
  {
    var n := |path| - 1;
    if n == 0 {
      assert Covered(Table(path[0]), ids);
    } else {
      var front := path[..n];
      assert forall i | 0 <= i < |front| - 1 :: Edge(h, front[i], Table(front[i + 1]));
      PathCovered(h, vs, ids, front);
      assert Edge(h, path[n - 1], Table(path[n - 1 + 1]));
      EntryIsChild(h, path[n - 1], Table(path[n]));
      assert Covered(Table(path[n]), ids);
    }
  }

  // ---------------------------------------------------------------- soundness

  lemma PathFromChild(h: Heap, vs: seq<Value>, r: nat, path: seq<nat>)
    requires r in h && Table(r) in vs && Path(h, Children(h[r]), path)
    ensures Path(h, vs, [r] + path)
  {
    ChildIsEntry(h, r, Table(path[0]));
    var long := [r] + path;
    forall i | 0 <= i < |long| - 1 ensures Edge(h, long[i], Table(long[i + 1])) {
      if i > 0 {
        assert long[i] == path[i - 1] && long[i + 1] == path[i - 1 + 1];
      }
    }
  }

  lemma ReachFromChild(h: Heap, vs: seq<Value>, r: nat, x: nat)
    requires r in h && Table(r) in vs && Reachable(h, Children(h[r]), x)
    ensures Reachable(h, vs, x)
  {
    var path :| Path(h, Children(h[r]), path) && path[|path| - 1] == x;
    PathFromChild(h, vs, r, path);
    assert ([r] + path)[|[r] + path| - 1] == x;
  }

  lemma ReachRoot(h: Heap, vs: seq<Value>, r: nat)
    requires r in h && Table(r) in vs
    ensures Reachable(h, vs, r)
  {
    assert Path(h, vs, [r]);
  }

  lemma ReachMore(h: Heap, vs: seq<Value>, ws: seq<Value>, x: nat)
    requires Reachable(h, vs, x) && forall v | v in vs :: v in ws
    ensures Reachable(h, ws, x)
  {
    var path :| Path(h, vs, path) && path[|path| - 1] == x;
    assert Path(h, ws, path);
  }

  ghost predicate ReachedSince(h: Heap, vs: seq<Value>, ids: seq<nat>, ids': seq<nat>) {
    forall r | r in ids' && r !in ids :: Reachable(h, vs, r)
  }

  lemma {:induction false} SoundValue(h: Heap, v: Value, anc: seq<nat>, ids: seq<nat>)
    requires GoodHeap(h) && Known(h, v) && GoodIds(h, ids)
    ensures var p := PackValue(h, v, anc, ids);
      if p.Packed? then ReachedSince(h, [v], ids, p.ids) else ReachesOther(h, [v])
    decreases Unseen(h, ids), 0
  {
    hide GoodHeap, PackValues, Children, Unseen, Reachable;
    if v.Table? && !ByAncestor(anc, v.ref) && v.ref !in ids {
      var r := v.ref;
      var body := PackNewTable(h, r, anc, ids);
      SoundValues(h, Children(h[r]), anc + [r], ids + [r]);
      ReachRoot(h, [v], r);
      if body.Packed? {
        forall x | x in body.ids && x !in ids ensures Reachable(h, [v], x) {
          if x != r { ReachFromChild(h, [v], r, x); }
        }
      } else if Other in Children(h[r]) {
        ChildIsEntry(h, r, Other);
      } else {
        var x :| Reachable(h, Children(h[r]), x) && x in h && Edge(h, x, Other);
        ReachFromChild(h, [v], r, x);
      }
    }
  }

  lemma OtherMore(h: Heap, vs: seq<Value>, ws: seq<Value>)
    requires ReachesOther(h, vs) && forall v | v in vs :: v in ws
    ensures ReachesOther(h, ws)
  {
    if Other !in vs {
      var x :| Reachable(h, vs, x) && x in h && Edge(h, x, Other);
      ReachMore(h, vs, ws, x);
    }
  }

  lemma {:induction false} SoundValues(h: Heap, vs: seq<Value>, anc: seq<nat>, ids: seq<nat>)
    requires GoodHeap(h) && AllKnown(h, vs) && GoodIds(h, ids)
    ensures var p := PackValues(h, vs, anc, ids);
      if p.Packed? then ReachedSince(h, vs, ids, p.ids) else ReachesOther(h, vs)
    decreases Unseen(h, ids), |vs|
  {
    hide GoodHeap, PackValue, Children, Unseen, Reachable, ReachesOther;
    if vs != [] {
      var p, q := PackList(h, vs, anc, ids);
      assert vs[0] in vs;
      SoundValue(h, vs[0], anc, ids);
      if p.Refused? {
        OtherMore(h, [vs[0]], vs);
      } else {
        SoundValues(h, vs[1..], anc, p.ids);
        if q.Refused? {
          OtherMore(h, vs[1..], vs);
        } else {
          forall r | r in q.ids && r !in ids ensures Reachable(h, vs, r) {
            if r in p.ids { ReachMore(h, [vs[0]], vs, r); } else { ReachMore(h, vs[1..], vs, r); }
          }
        }
      }
    }
  }

  // ------------------------------------------------------------ main results

  // The tables written are exactly the reachable ones, each once.
  lemma TablesAreReachable(h: Heap, vs: seq<Value>)
    requires GoodHeap(h) && AllKnown(h, vs) && PackValues(h, vs, [], []).Packed?
    ensures var ids := PackValues(h, vs, [], []).ids;
      Distinct(ids) && forall r :: r in ids <==> Reachable(h, vs, r)
  {
    var ids := PackValues(h, vs, [], []).ids;
    SoundValues(h, vs, [], []);
    CompleteValues(h, vs, [], []);
    forall r | Reachable(h, vs, r) ensures r in ids {
      var path :| Path(h, vs, path) && path[|path| - 1] == r;
      PathCovered(h, vs, ids, path);
    }
  }

  lemma NothingRefused(vs: seq<Value>, ids: seq<nat>)
    requires AllCovered(vs, ids)
    ensures Other !in vs
  {
    forall v | v in vs ensures v != Other {
      assert Covered(v, ids);
    }
  }

  lemma ClosedHoldsNoOther(h: Heap, ids: seq<nat>, r: nat)
    requires GoodHeap(h) && ClosedSince(h, [], ids) && r in ids
    ensures r in h && !Edge(h, r, Other)
  {
    NothingRefused(Children(h[r]), ids);
    if Edge(h, r, Other) { EntryIsChild(h, r, Other); }
  }

  // Packing fails just when a value it cannot write is reachable.
  lemma RefusesExactlyOthers(h: Heap, vs: seq<Value>)
    requires GoodHeap(h) && AllKnown(h, vs)
    ensures PackAll(h, vs).Invalid? <==> ReachesOther(h, vs)
  {
    SoundValues(h, vs, [], []);
    if PackValues(h, vs, [], []).Packed? {
      var ids := PackValues(h, vs, [], []).ids;
      CompleteValues(h, vs, [], []);
      TablesAreReachable(h, vs);
      NothingRefused(vs, ids);
      forall r | Reachable(h, vs, r) ensures r in h && !Edge(h, r, Other) {
        ClosedHoldsNoOther(h, ids, r);
      }
    }
  }

  // The heads in a token list number the tables n+1, n+2, ... m, with the
  // array size of the table each stands for; a reference by id names a head
  // that came before it.
  predicate InOrder(h: Heap, all: seq<nat>, toks: seq<Token>, n: nat, m: nat) {
    if toks == [] then n == m
    else match toks[0]
      case Head(id, size) =>
        id == n + 1 && n < |all| && all[n] in h && size == h[all[n]].border && InOrder(h, all, toks[1..], n + 1, m)
      case Object(id) => 0 < id <= n && InOrder(h, all, toks[1..], n, m)
      case Ancestor(i) => i < MAX_DEPTH - 1 && InOrder(h, all, toks[1..], n, m)
      case Scalar(v) => IsScalar(v) && InOrder(h, all, toks[1..], n, m)
  }

  lemma {:induction false} InOrderConcat(h: Heap, all: seq<nat>, xs: seq<Token>, ys: seq<Token>, n: nat, m: nat, m': nat)
    requires InOrder(h, all, xs, n, m) && InOrder(h, all, ys, m, m')
    ensures InOrder(h, all, xs + ys, n, m')
    decreases |xs|
  {
    if xs == [] {
      assert xs + ys == ys;
    } else {
      assert (xs + ys)[0] == xs[0] && (xs + ys)[1..] == xs[1..] + ys;
      InOrderConcat(h, all, xs[1..], ys, if xs[0].Head? then n + 1 else n, m, m');
    }
  }

  lemma {:induction false} OrderOfValue(h: Heap, v: Value, anc: seq<nat>, ids: seq<nat>, all: seq<nat>)
    requires GoodHeap(h) && Known(h, v) && GoodIds(h, ids)
    requires PackValue(h, v, anc, ids).Packed? && PackValue(h, v, anc, ids).ids <= all
    ensures var p := PackValue(h, v, anc, ids); InOrder(h, all, p.toks, |ids|, |p.ids|)
    decreases Unseen(h, ids), 0
  {
    hide GoodHeap, PackValues, Children, Unseen;
    if v.Table? && !ByAncestor(anc, v.ref) && v.ref !in ids {
      var r := v.ref;
      var body := PackNewTable(h, r, anc, ids);
      OrderOfValues(h, Children(h[r]), anc + [r], ids + [r], all);
      assert all[|ids|] == (ids + [r])[|ids|];
      var toks := [Head(|ids| + 1, h[r].border)] + body.toks;
      assert toks[1..] == body.toks;
    }
  }

  lemma {:induction false} OrderOfValues(h: Heap, vs: seq<Value>, anc: seq<nat>, ids: seq<nat>, all: seq<nat>)
    requires GoodHeap(h) && AllKnown(h, vs) && GoodIds(h, ids)
    requires PackValues(h, vs, anc, ids).Packed? && PackValues(h, vs, anc, ids).ids <= all
    ensures var p := PackValues(h, vs, anc, ids); InOrder(h, all, p.toks, |ids|, |p.ids|)
    decreases Unseen(h, ids), |vs|
  {
    hide GoodHeap, PackValue, Children, Unseen;
    if vs != [] {
      var p, q := PackList(h, vs, anc, ids);
      OrderOfValue(h, vs[0], anc, ids, all);
      OrderOfValues(h, vs[1..], anc, p.ids, all);
      InOrderConcat(h, all, p.toks, q.toks, |ids|, |p.ids|, |q.ids|);
    }
  }

  // One full record per table in preorder, every reference backwards, over
  // the whole stream; and every table referred to by id carries the mark.
  lemma StreamInOrder(h: Heap, vs: seq<Value>)
    requires GoodHeap(h) && AllKnown(h, vs) && PackValues(h, vs, [], []).Packed?
    ensures var p := PackValues(h, vs, [], []);
      InOrder(h, p.ids, p.toks, 0, |p.ids|) && forall id | id in Referenced(p.toks) :: 0 < id <= |p.ids|
  {
    OrderOfValues(h, vs, [], [], PackValues(h, vs, [], []).ids);
    var p := PackValues(h, vs, [], []);
    forall id | id in Referenced(p.toks) ensures 0 < id <= |p.ids| {
      ReferencedInRange(h, p.ids, p.toks, 0, |p.ids|, id);
    }
  }

  lemma {:induction false} ReferencedInRange(h: Heap, all: seq<nat>, toks: seq<Token>, n: nat, m: nat, id: nat)
    requires InOrder(h, all, toks, n, m) && Object(id) in toks
    ensures 0 < id <= m
    decreases |toks|
  {
    OrderGrows(h, all, toks, n, m);
    if toks[0] != Object(id) {
      ReferencedInRange(h, all, toks[1..], if toks[0].Head? then n + 1 else n, m, id);
    }
  }

  lemma {:induction false} OrderGrows(h: Heap, all: seq<nat>, toks: seq<Token>, n: nat, m: nat)
    requires InOrder(h, all, toks, n, m)
    ensures n <= m
    decreases |toks|
  {
    if toks != [] { OrderGrows(h, all, toks[1..], if toks[0].Head? then n + 1 else n, m); }
  }
}
