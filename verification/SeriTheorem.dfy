// The serializer's main result: what was packed comes back just when every
// reference by depth in it is safe.
module SeriTheorem {
  import opened SeriFormat
  import opened SeriPack
  import opened SeriUnpack
  import opened SeriTokens
  import opened SeriFrame
  import opened SeriImage
  import opened SeriReach
  import opened SeriStraight
  import opened SeriSync
  import opened SeriContext
  import opened SeriContent
  import opened SeriExact
  import opened SeriPatch

  // ------------------------------------------------------- sizes and numbers

  // What a token of a stream in order says.
  lemma {:induction false} OrderOfToken(h: Heap, all: seq<nat>, toks: seq<Token>, n: nat, m: nat, t: Token)
    requires InOrder(h, all, toks, n, m) && t in toks
    ensures match t
      case Scalar(v) => IsScalar(v)
      case Head(id, _) => n < id <= m
      case Ancestor(i) => i < MAX_DEPTH - 1
      case Object(id) => 0 < id <= m
    decreases |toks|
  {
    OrderGrows(h, all, toks, n, m);
    var next := if toks[0].Head? then n + 1 else n;
    OrderGrows(h, all, toks[1..], next, m);
    if t != toks[0] { OrderOfToken(h, all, toks[1..], next, m, t); }
  }

  lemma {:induction false} OrderOfHeads(h: Heap, all: seq<nat>, toks: seq<Token>, n: nat, m: nat)
    requires InOrder(h, all, toks, n, m)
    ensures |Heads(toks)| == m - n <= |toks| && forall i | 0 <= i < m - n :: Heads(toks)[i] == n + i + 1
    decreases |toks|
  {
    if toks != [] { OrderOfHeads(h, all, toks[1..], if toks[0].Head? then n + 1 else n, m); }
  }

  lemma {:induction false} RenderSize(toks: seq<Token>, M: set<nat>, t: Token)
    requires t in toks
    ensures |Render(toks, M)| >= |toks| && |Render(toks, M)| >= |EncodeToken(t, M)|
  {
    RenderLength(toks[1..], M);
    if t != toks[0] { RenderSize(toks[1..], M, t); }
  }

  lemma {:induction false} RenderLength(toks: seq<Token>, M: set<nat>)
    ensures |Render(toks, M)| >= |toks|
  {
    if toks != [] { RenderLength(toks[1..], M); }
  }

  lemma {:induction false} TagByte(toks: seq<Token>, M: set<nat>, id: nat)
    requires id in Heads(toks)
    ensures Offset(toks, id) < |Render(toks, M)|
    ensures Render(toks, M)[Offset(toks, id)] % 8 == if id in M then TYPE_TABLE_MARK else TYPE_TABLE
  {
    hide EncodeToken;
    if toks[0].Head? && toks[0].id == id {
      FirstByte(toks[0], M);
    } else {
      SameLength(toks[0], M);
      TagByte(toks[1..], M, id);
    }
  }

  lemma FirstByte(t: Token, M: set<nat>)
    requires t.Head?
    ensures EncodeToken(t, M)[0] % 8 == if t.id in M then TYPE_TABLE_MARK else TYPE_TABLE
  {
  }

  // The tag of table `id` in the stream, marked or not.
  ghost predicate Tagged(toks: seq<Token>, stream: bytes, id: nat) {
    && id in Heads(toks) && Offset(toks, id) < |stream|
    && stream[Offset(toks, id)] % 8 == if Object(id) in toks then TYPE_TABLE_MARK else TYPE_TABLE
  }

  lemma FitsOne(t: Token, M: set<nat>, n: nat)
    requires n < MAX_SIZE && |EncodeToken(t, M)| < MAX_SIZE
    requires match t
      case Scalar(v) => IsScalar(v)
      case Head(id, _) => id <= n
      case Ancestor(i) => i < MAX_DEPTH - 1
      case Object(id) => id <= n && id in M
    ensures Fits(t, M)
  {
  }

  // In a stream short enough for a C int every number fits its field, and a
  // table's tag is marked just when the stream refers to the table by number.
  lemma ShortStreamFits(h: Heap, vs: seq<Value>)
    requires GoodHeap(h) && AllKnown(h, vs) && PackAll(h, vs).Ok? && |PackAll(h, vs).value| < MAX_SIZE
    ensures var p := PackValues(h, vs, [], []);
      && p.Packed? && AllFit(p.toks, Referenced(p.toks))
      && forall id | 0 < id <= |p.ids| :: Tagged(p.toks, PackAll(h, vs).value, id)
  {
    hide GoodHeap, PackValues, Fits, EncodeToken, Offset;
    var p := PackValues(h, vs, [], []);
    var M := Referenced(p.toks);
    StreamInOrder(h, vs);
    OrderOfHeads(h, p.ids, p.toks, 0, |p.ids|);
    RenderLength(p.toks, M);
    forall t | t in p.toks ensures Fits(t, M) {
      OrderOfToken(h, p.ids, p.toks, 0, |p.ids|, t);
      RenderSize(p.toks, M, t);
      FitsOne(t, M, |p.ids|);
    }
    forall id | 0 < id <= |p.ids| ensures Tagged(p.toks, PackAll(h, vs).value, id) {
      assert Heads(p.toks)[id - 1] == id;
      TagByte(p.toks, M, id);
      assert id in M <==> Object(id) in p.toks;
    }
  }

  // --------------------------------------------------------------- round trip

  function RenameAll(all: seq<nat>, vs: seq<Value>): (r: seq<Value>)
    ensures |r| == |vs| && forall i | 0 <= i < |vs| :: r[i] == Rename(all, vs[i])
  {
    seq(|vs|, i requires 0 <= i < |vs| => Rename(all, vs[i]))
  }

  lemma RenameAllUnfold(all: seq<nat>, vs: seq<Value>)
    requires vs != []
    ensures RenameAll(all, vs) == [Rename(all, vs[0])] + RenameAll(all, vs[1..])
  {
  }

  // All values are read right, and so are the tables opened for them.
  ghost predicate AllRight(h: Heap, all: seq<nat>, m: Memory, r: Result<Memory>, vs: seq<Value>, from: nat, to: nat) {
    r.Ok? && r.value.stack == m.stack + RenameAll(all, vs) && Made(h, all, r.value.heap, from, to)
  }

  lemma {:induction false} ExactAll(h: Heap, all: seq<nat>, M: set<nat>, vs: seq<Value>, ids: seq<nat>, m: Memory)
    requires Setting(h, all) && AllKnown(h, vs) && GoodIds(h, ids) && Synced(m, ids, M) && m.depth == 0 && ids <= all
    requires Ahead(PackValues(h, vs, [], ids), m, all, M, [])
    ensures AllRight(h, all, m, ReadAll(m, M), vs, |ids|, |PackValues(h, vs, [], ids).ids|) <==> StraightList(h, vs, [], ids, {}, false)
    decreases |vs|
  {
    if vs == [] {
      MadeNone(h, all, m.heap, |ids|);
      assert m.toks == [] && m.stack + RenameAll(all, vs) == m.stack;
    } else {
      ExactFirst(h, all, M, vs, ids, m);
    }
  }

  lemma NoContext(m: Memory, ids: seq<nat>, all: seq<nat>)
    requires Slots(m) && m.depth == 0 && ids <= all
    ensures Context(m, [], ids, all, {}, false)
  {
  }

  lemma ReadAllUnfold(m: Memory, M: set<nat>)
    requires Slots(m) && m.toks != []
    ensures ReadAll(m, M) == if ReadOne(m, M).Ok? then ReadAll(ReadOne(m, M).value, M) else Invalid
  {
    hide ReadOne;
  }

  lemma {:induction false} PackedSome(h: Heap, v: Value, anc: seq<nat>, ids: seq<nat>)
    requires GoodHeap(h) && Known(h, v) && GoodIds(h, ids) && PackValue(h, v, anc, ids).Packed?
    ensures PackValue(h, v, anc, ids).toks != []
  {
    hide GoodHeap, GoodIds, PackValues, Children;
  }

  // After one value.
  lemma NextSynced(m: Memory, t: Memory, w: Value, ids1: seq<nat>, pr: Packed, all: seq<nat>, M: set<nat>)
    requires pr.Packed? && pr.ids <= all && Marks(pr.toks, M) && m.depth == 0 && Grew(m, t, [w], m.heap, ids1, pr.toks + [], M)
    ensures Synced(t, ids1, M) && t.depth == 0 && Ahead(pr, t, all, M, [])
  {
  }

  // Later values leave the tables of earlier ones alone.
  lemma {:induction false} FrameAll(m: Memory, M: set<nat>)
    requires Slots(m) && ReadAll(m, M).Ok?
    ensures |m.heap| <= |ReadAll(m, M).value.heap| && ReadAll(m, M).value.heap[..|m.heap|] == m.heap
    decreases |m.toks|
  {
    hide ReadOne;
    if m.toks != [] {
      FrameOne(m, M);
      var t := ReadOne(m, M).value;
      FrameAll(t, M);
      assert ReadAll(t, M).value.heap[..|t.heap|][..|m.heap|] == ReadAll(t, M).value.heap[..|m.heap|];
    }
  }

  lemma AllBeyond(m: Memory, M: set<nat>, from: nat)
    requires Slots(m) && ReadAll(m, M).Ok?
    ensures Beyond(m.heap, ReadAll(m, M).value.heap, from)
  {
    hide ReadAll;
    FrameAll(m, M);
    forall q | from <= q < |m.heap| ensures ReadAll(m, M).value.heap[q] == m.heap[q] {
      assert ReadAll(m, M).value.heap[..|m.heap|][q] == m.heap[q];
    }
  }

  // The first value's tables, and those of the values after it.
  lemma FirstMade(h: Heap, all: seq<nat>, t: Memory, y: Memory, a: nat, b: nat, c: nat)
    requires a <= b <= c <= |all| && (forall x | x in all :: x in h) && |t.heap| == b <= |y.heap| && y.heap[..b] == t.heap
    ensures Made(h, all, y.heap, a, c) <==> Made(h, all, t.heap, a, b) && Made(h, all, y.heap, b, c)
  {
    if |y.heap| == c {
      hide Made;
      assert y.heap[a..b] == y.heap[..b][a..] == t.heap[a..];
      MadeSplit(h, all, y.heap, t.heap, a, b, c);
    } else {
      hide Images;
    }
  }

  lemma {:induction false} ExactFirst(h: Heap, all: seq<nat>, M: set<nat>, vs: seq<Value>, ids: seq<nat>, m: Memory)
    requires Setting(h, all) && AllKnown(h, vs) && GoodIds(h, ids) && vs != [] && Synced(m, ids, M) && m.depth == 0 && ids <= all
    requires Ahead(PackValues(h, vs, [], ids), m, all, M, [])
    ensures AllRight(h, all, m, ReadAll(m, M), vs, |ids|, |PackValues(h, vs, [], ids).ids|) <==> StraightList(h, vs, [], ids, {}, false)
    decreases |vs|, 0
  {
    hide GoodHeap, GoodIds, PackValue, PackValues, ReadOne, ReadAll, Grew, Meant, Synced, Context, Made, StraightList, StraightValue,
         KeysKnown, RenameAll, New, Rename, Spoilt, Opens;
    var pv, pr := ListStretch(h, all, M, vs, [], ids, m, []);
    HeapOf(m, ids, M);
    AllInHeap(h, all);
    NoContext(m, ids, all);
    PackedSome(h, vs[0], [], ids);
    ReadAllUnfold(m, M);
    StraightListParts(h, vs, [], ids, {}, false, pv);
    SyncValue(h, all, M, vs[0], [], ids, m, pr.toks + []);
    ExactValue(h, all, M, vs[0], [], ids, m, pr.toks + [], {}, false);
    PlainMeant(m, vs[0], [], all);
    if ReadOne(m, M).Ok? {
      var t := ReadOne(m, M).value;
      if ReadAll(t, M).Ok? { FrameAll(t, M); }
      if Spoilt(h, all, t.heap, |ids|) {
        SpoiltNotMade(h, all, t.heap, |ids|, |ids|, |pv.ids|);
        if ReadAll(t, M).Ok? {
          AllBeyond(t, M, |ids|);
          SpoiltOn(h, all, t.heap, ReadAll(t, M).value.heap, |ids|, |ids|);
          SpoiltNotMade(h, all, ReadAll(t, M).value.heap, |ids|, |ids|, |pr.ids|);
        }
      } else {
        NextSynced(m, t, Rename(all, vs[0]), pv.ids, pr, all, M);
        ReadFacts(h, all, m, ReadOne(m, M), Rename(all, vs[0]), New(vs[0], [], ids), pv.ids, pr.toks + [], M);
        ExactAll(h, all, M, vs[1..], pv.ids, t);
        RenameAllUnfold(all, vs);
        assert t.stack + RenameAll(all, vs[1..]) == m.stack + RenameAll(all, vs);
        if ReadAll(t, M).Ok? { FirstMade(h, all, t, ReadAll(t, M).value, |ids|, |pv.ids|, |pr.ids|); }
      }
    }
  }

  // -------------------------------------------------------------- main results

  // The keys of what is packed are packed.
  lemma KeysPacked(h: Heap, ids: seq<nat>)
    requires GoodHeap(h) && GoodIds(h, ids) && ClosedSince(h, [], ids)
    ensures KeysKnown(h, ids)
  {
    hide Children;
    forall r, i | r in ids && 0 <= i < |h[r].entries| ensures InStream(ids, h[r].entries[i].key) {
      var key := h[r].entries[i].key;
      if key.Table? {
        assert Edge(h, r, key);
        EntryIsChild(h, r, key);
        assert Covered(key, ids);
      }
    }
  }

  // What is unpacked is what was packed, with the k-th table recorded by the
  // writer as the k-th table created by the reader.
  ghost predicate ComesBack(h: Heap, vs: seq<Value>)
    requires GoodHeap(h) && AllKnown(h, vs) && PackAll(h, vs).Ok?
  {
    var ids, r := PackValues(h, vs, [], []).ids, UnpackAll(Start(PackAll(h, vs).value));
    r.Ok? && r.value.stack == RenameAll(ids, vs) && r.value.heap == Images(h, ids, 0, |ids|)
  }

  // Unpacking the packed bytes rebuilds every value and every table just when
  // every reference by depth in the stream is safe.
  lemma RoundTrip(h: Heap, vs: seq<Value>)
    requires GoodHeap(h) && AllKnown(h, vs) && PackAll(h, vs).Ok? && |PackAll(h, vs).value| < MAX_SIZE
    ensures ComesBack(h, vs) <==> Straight(h, vs)
  {
    hide GoodHeap, PackValues, ReadAll, UnpackAll, KeysKnown, StraightList, RenameAll, Images, Render, Children, ClosedSince, Fits;
    var p := PackValues(h, vs, [], []);
    var M := Referenced(p.toks);
    var m := StartAt(p.toks);
    ShortStreamFits(h, vs);
    CompleteValues(h, vs, [], []);
    KeysPacked(h, p.ids);
    StartSynced(p, m, M);
    ExactAll(h, p.ids, M, vs, [], m);
    AllAgree(m, M);
    assert Start(PackAll(h, vs).value) == Bytes(m, M);
    if ReadAll(m, M).Ok? {
      var y := ReadAll(m, M).value;
      assert y.heap[0..] == y.heap && [] + RenameAll(p.ids, vs) == RenameAll(p.ids, vs);
    }
  }

  lemma StartSynced(p: Packed, m: Memory, M: set<nat>)
    requires p.Packed? && m == StartAt(p.toks) && M == Referenced(p.toks)
    ensures Synced(m, [], M) && Ahead(p, m, p.ids, M, []) && m.depth == 0 && m.stack == []
  {
    assert p.toks + [] == p.toks;
  }

  // --------------------------------------------------------------- isomorphism

  // b stands for a when tables are paired up by f.
  predicate Matches(f: map<nat, nat>, a: Value, b: Value) {
    if a.Table? then a.ref in f && b == Table(f[a.ref]) else a == b
  }

  predicate HasPair(f: map<nat, nat>, e: Pair, c: Content) {
    exists k :: k in c && Matches(f, e.key, k) && Matches(f, e.val, c[k])
  }

  predicate FromPair(f: map<nat, nat>, t: Tab, k: Value, w: Value) {
    exists i :: 0 <= i < |t.entries| && Matches(f, t.entries[i].key, k) && Matches(f, t.entries[i].val, w)
  }

  // The pairs of t and those of its counterpart correspond.
  ghost predicate SameTable(f: map<nat, nat>, t: Tab, c: Content) {
    (forall i | 0 <= i < |t.entries| :: HasPair(f, t.entries[i], c)) && (forall k | k in c :: FromPair(f, t, k, c[k]))
  }

  predicate Hit(f: map<nat, nat>, k: nat) {
    exists r :: r in f && f[r] == k
  }

  // f pairs the tables of its domain with 1 .. n, one to one and onto.
  predicate Bijection(f: map<nat, nat>, n: nat) {
    && (forall r | r in f :: 0 < f[r] <= n)
    && (forall a, b | a in f && b in f && f[a] == f[b] :: a == b)
    && (forall k | 0 < k <= n :: Hit(f, k))
  }

  predicate SameValues(f: map<nat, nat>, vs: seq<Value>, ws: seq<Value>) {
    |vs| == |ws| && forall i | 0 <= i < |vs| :: Matches(f, vs[i], ws[i])
  }

  ghost predicate SameTables(h: Heap, heap: seq<Content>, f: map<nat, nat>)
    requires Bijection(f, |heap|)
  {
    forall r | r in f :: r in h && SameTable(f, h[r], heap[f[r] - 1])
  }

  // f is a bijection from the tables reachable from vs to the tables of
  // `heap`, under which vs becomes `stack` and tables have the same pairs.
  ghost predicate Isomorphism(h: Heap, vs: seq<Value>, stack: seq<Value>, heap: seq<Content>, f: map<nat, nat>) {
    && (forall r :: r in f <==> Reachable(h, vs, r))
    && Bijection(f, |heap|)
    && SameValues(f, vs, stack)
    && SameTables(h, heap, f)
  }

  // A table in the order of recording goes to the table in the order of
  // creation.
  function Preorder(ids: seq<nat>): map<nat, nat> {
    map r | r in ids :: IndexOf(ids, r) + 1
  }

  lemma PreorderBijection(ids: seq<nat>, n: nat)
    requires Distinct(ids)
    ensures Bijection(Preorder(ids), n) <==> n == |ids|
  {
    var f := Preorder(ids);
    forall k | 0 < k <= |ids| ensures Hit(f, k) {
      IndexAt(ids, k - 1);
      assert ids[k - 1] in f && f[ids[k - 1]] == k;
    }
    if n < |ids| { assert Hit(f, |ids|); }
    if n > |ids| { assert !Hit(f, |ids| + 1); }
  }

  lemma MatchesIsRename(ids: seq<nat>, a: Value, b: Value)
    requires Covered(a, ids)
    ensures Matches(Preorder(ids), a, b) <==> b == Rename(ids, a)
  {
  }

  predicate EntriesCovered(t: Tab, ids: seq<nat>) {
    forall i | 0 <= i < |t.entries| :: Covered(t.entries[i].key, ids) && Covered(t.entries[i].val, ids)
  }

  lemma SameTableIsImage(ids: seq<nat>, t: Tab, c: Content)
    requires GoodTab(t) && EntriesCovered(t, ids)
    ensures SameTable(Preorder(ids), t, c) <==> c == Image(ids, t.entries)
  {
    hide SameTable, Image, GoodTab, EntriesCovered;
    if c == Image(ids, t.entries) { ImageIsSame(ids, t); }
    if SameTable(Preorder(ids), t, c) { SameIsImage(ids, t, c); }
  }

  lemma PairIsLookup(ids: seq<nat>, e: Pair, c: Content)
    requires Covered(e.key, ids) && Covered(e.val, ids) && HasPair(Preorder(ids), e, c)
    ensures Lookup(c, Rename(ids, e.key)) == Rename(ids, e.val)
  {
    hide Preorder, Matches, Rename;
    var k :| k in c && Matches(Preorder(ids), e.key, k) && Matches(Preorder(ids), e.val, c[k]);
    MatchesIsRename(ids, e.key, k);
    MatchesIsRename(ids, e.val, c[k]);
  }

  lemma SameIsImage(ids: seq<nat>, t: Tab, c: Content)
    requires GoodTab(t) && EntriesCovered(t, ids) && SameTable(Preorder(ids), t, c)
    ensures c == Image(ids, t.entries)
  {
    hide Preorder, Matches, Rename, Image, HasPair;
    forall i | 0 <= i < |t.entries|
      ensures Lookup(c, Rename(ids, t.entries[i].key)) == Rename(ids, t.entries[i].val) && InStream(ids, t.entries[i].key)
    {
      PairIsLookup(ids, t.entries[i], c);
    }
    forall x | x in c ensures ImageKey(ids, t.entries, x) {
      var i :| 0 <= i < |t.entries| && Matches(Preorder(ids), t.entries[i].key, x);
      MatchesIsRename(ids, t.entries[i].key, x);
    }
    IsImage(ids, t, c);
  }

  lemma ImageIsSame(ids: seq<nat>, t: Tab)
    requires GoodTab(t) && EntriesCovered(t, ids)
    ensures SameTable(Preorder(ids), t, Image(ids, t.entries))
  {
    hide Preorder, Matches, Rename, Image;
    var f, c := Preorder(ids), Image(ids, t.entries);
    forall i | 0 <= i < |t.entries| ensures HasPair(f, t.entries[i], c) {
      MatchesIsRename(ids, t.entries[i].key, Rename(ids, t.entries[i].key));
      MatchesIsRename(ids, t.entries[i].val, Rename(ids, t.entries[i].val));
      ImageHas(ids, t.entries, i);
    }
    forall k | k in c ensures FromPair(f, t, k, c[k]) {
      ImageOnly(ids, t.entries, k);
      var i :| 0 <= i < |t.entries| && Rename(ids, t.entries[i].key) == k;
      ImageHas(ids, t.entries, i);
      MatchesIsRename(ids, t.entries[i].key, k);
      MatchesIsRename(ids, t.entries[i].val, c[k]);
    }
  }

  lemma ClosedEntries(h: Heap, ids: seq<nat>, r: nat)
    requires GoodHeap(h) && ClosedSince(h, [], ids) && r in ids
    ensures r in h && EntriesCovered(h[r], ids)
  {
    hide Children;
    ClosedHoldsNoOther(h, ids, r);
    forall i | 0 <= i < |h[r].entries|
      ensures Covered(h[r].entries[i].key, ids) && Covered(h[r].entries[i].val, ids)
    {
      EdgeCovered(h, ids, r, h[r].entries[i].key);
      EdgeCovered(h, ids, r, h[r].entries[i].val);
    }
  }

  lemma EdgeCovered(h: Heap, ids: seq<nat>, r: nat, v: Value)
    requires GoodHeap(h) && ClosedSince(h, [], ids) && r in ids && r in h && Edge(h, r, v) && !Edge(h, r, Other)
    ensures Covered(v, ids)
  {
    hide Children;
    if v.Table? { EntryIsChild(h, r, v); }
  }

  // Table by table.
  ghost predicate AllImages(h: Heap, ids: seq<nat>, heap: seq<Content>)
    requires |heap| == |ids| && forall x | x in ids :: x in h
  {
    forall k | 0 <= k < |ids| :: InHeap(h, ids, k) && heap[k] == Image(ids, h[ids[k]].entries)
  }

  predicate InHeap(h: Heap, ids: seq<nat>, k: nat)
    requires k < |ids|
  {
    ids[k] in h
  }

  lemma ImagesAreAll(h: Heap, ids: seq<nat>, heap: seq<Content>)
    requires |heap| == |ids| && forall x | x in ids :: x in h
    ensures AllImages(h, ids, heap) <==> heap == Images(h, ids, 0, |ids|)
  {
    hide Image;
    assert forall k | 0 <= k < |ids| :: ids[k] in ids;
    if AllImages(h, ids, heap) {
      forall k | 0 <= k < |ids| ensures heap[k] == Images(h, ids, 0, |ids|)[k] {
        assert InHeap(h, ids, k);
      }
    }
  }

  // One table against its image, by its place in the order.
  lemma PlaceIsImage(h: Heap, ids: seq<nat>, heap: seq<Content>, k: nat)
    requires GoodHeap(h) && GoodIds(h, ids) && ClosedSince(h, [], ids) && |heap| == |ids| && k < |ids|
    ensures var f := Preorder(ids);
      ids[k] in f && f[ids[k]] == k + 1 && ids[k] in h &&
      (SameTable(f, h[ids[k]], heap[k]) <==> heap[k] == Image(ids, h[ids[k]].entries))
  {
    hide SameTable, Image, ClosedSince, GoodHeap;
    assert ids[k] in ids;
    IndexAt(ids, k);
    GoodTables(h, ids[k]);
    ClosedEntries(h, ids, ids[k]);
    SameTableIsImage(ids, h[ids[k]], heap[k]);
  }

  lemma GoodTables(h: Heap, r: nat)
    requires GoodHeap(h) && r in h
    ensures GoodTab(h[r])
  {
  }

  lemma SameTablesAreImages(h: Heap, ids: seq<nat>, heap: seq<Content>)
    requires GoodHeap(h) && GoodIds(h, ids) && ClosedSince(h, [], ids) && |heap| == |ids|
    ensures Bijection(Preorder(ids), |heap|)
    ensures SameTables(h, heap, Preorder(ids)) <==> heap == Images(h, ids, 0, |ids|)
  {
    hide SameTable, Image, Images, ClosedSince, Bijection, GoodHeap;
    PreorderBijection(ids, |heap|);
    ImagesAreAll(h, ids, heap);
    var f := Preorder(ids);
    forall k | 0 <= k < |ids|
      ensures ids[k] in f && f[ids[k]] == k + 1 && InHeap(h, ids, k)
      ensures SameTable(f, h[ids[k]], heap[k]) <==> heap[k] == Image(ids, h[ids[k]].entries)
    {
      PlaceIsImage(h, ids, heap, k);
    }
    if AllImages(h, ids, heap) {
      forall r | r in f ensures r in h && SameTable(f, h[r], heap[f[r] - 1]) {
        assert ids[IndexOf(ids, r)] == r && InHeap(h, ids, IndexOf(ids, r));
      }
    }
    if SameTables(h, heap, f) {
      forall k | 0 <= k < |ids| ensures InHeap(h, ids, k) && heap[k] == Image(ids, h[ids[k]].entries) {
        assert ids[k] in f;
      }
    }
  }

  lemma SameValuesAreRenamed(vs: seq<Value>, ids: seq<nat>, stack: seq<Value>)
    requires AllCovered(vs, ids)
    ensures SameValues(Preorder(ids), vs, stack) <==> stack == RenameAll(ids, vs)
  {
    hide Preorder, Matches, Rename;
    forall i, b | 0 <= i < |vs| ensures Matches(Preorder(ids), vs[i], b) <==> b == Rename(ids, vs[i]) {
      assert Covered(vs[i], ids);
      MatchesIsRename(ids, vs[i], b);
    }
    if SameValues(Preorder(ids), vs, stack) {
      assert forall i | 0 <= i < |vs| :: stack[i] == RenameAll(ids, vs)[i];
    }
  }

  lemma PreorderDomain(h: Heap, vs: seq<Value>)
    requires GoodHeap(h) && AllKnown(h, vs) && PackValues(h, vs, [], []).Packed?
    ensures forall r :: r in Preorder(PackValues(h, vs, [], []).ids) <==> Reachable(h, vs, r)
  {
    hide Reachable;
    TablesAreReachable(h, vs);
  }

  // The graph that comes back is isomorphic to the graph that went in, table
  // by table in the order they were written, just when every reference by
  // depth is safe: then sharing, cycles and contents are preserved, and nothing
  // is added or merged.
  lemma UnpackAfterPack(h: Heap, vs: seq<Value>)
    requires GoodHeap(h) && AllKnown(h, vs) && PackAll(h, vs).Ok? && |PackAll(h, vs).value| < MAX_SIZE
    ensures var r, f := UnpackAll(Start(PackAll(h, vs).value)), Preorder(PackValues(h, vs, [], []).ids);
      r.Ok? && Isomorphism(h, vs, r.value.stack, r.value.heap, f) <==> Straight(h, vs)
  {
    hide Reachable, UnpackAll, Children, SameTables, SameValues, Bijection, Preorder, RenameAll, Images, ClosedSince, Render, Straight;
    RoundTrip(h, vs);
    CompleteValues(h, vs, [], []);
    PreorderDomain(h, vs);
    var r, ids := UnpackAll(Start(PackAll(h, vs).value)), PackValues(h, vs, [], []).ids;
    if r.Ok? {
      SameValuesAreRenamed(vs, ids, r.value.stack);
      PreorderBijection(ids, |r.value.heap|);
      if |r.value.heap| == |ids| { SameTablesAreImages(h, ids, r.value.heap); }
    }
  }

  // The same for whole messages, length header included.
  lemma MessageRoundTrip(h: Heap, vs: seq<Value>)
    requires GoodHeap(h) && AllKnown(h, vs) && PackAll(h, vs).Ok? && |PackAll(h, vs).value| < MAX_SIZE
    ensures var stream := PackAll(h, vs).value;
      var r, f := UnpackMessage(LE(4, |stream|) + stream), Preorder(PackValues(h, vs, [], []).ids);
      r.Ok? && Isomorphism(h, vs, r.value.stack, r.value.heap, f) <==> Straight(h, vs)
  {
    hide PackAll, Isomorphism, UnpackMessage, UnpackAll, Straight, PackValues;
    UnpackAfterPack(h, vs);
    MessageBody(PackAll(h, vs).value);
  }
}
