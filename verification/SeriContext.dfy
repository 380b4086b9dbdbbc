// What the reader finds in the places it remembers open tables by.
module SeriContext {
  import opened SeriFormat
  import opened SeriPack
  import opened SeriUnpack
  import opened SeriTokens
  import opened SeriFrame
  import opened SeriImage
  import opened SeriStraight
  import opened SeriSync

  predicate InRange(m: Memory, j: nat) {
    j < |m.ancestor| && m.ancestor[j] < |m.stack|
  }

  function At(m: Memory, j: nat): Value
    requires InRange(m, j)
  {
    m.stack[m.ancestor[j]]
  }

  // The clean places below d hold the tables the writer means.
  predicate Holds(m: Memory, d: nat, anc: seq<nat>, all: seq<nat>, clean: set<nat>) {
    forall i | i in clean :: i < d && i < |anc| && InRange(m, i) && At(m, i) == Rename(all, Table(anc[i]))
  }

  // Another one holds no such table, of its own depth or of a lower one.
  predicate Misses(m: Memory, d: nat, anc: seq<nat>, all: seq<nat>, clean: set<nat>) {
    forall i, j | 0 <= i <= j < d && i < |anc| && i !in clean && j !in clean && InRange(m, j) ::
      At(m, j) != Rename(all, Table(anc[i]))
  }

  predicate Places(m: Memory, d: nat, anc: seq<nat>, all: seq<nat>, clean: set<nat>) {
    |anc| < MAX_DEPTH ==> Holds(m, d, anc, all, clean) && Misses(m, d, anc, all, clean)
  }

  // A value is about to be read.
  predicate Context(m: Memory, anc: seq<nat>, ids: seq<nat>, all: seq<nat>, clean: set<nat>, shifted: bool) {
    && Slots(m) && Distinct(anc) && Within(anc, ids) && ids <= all
    && (if shifted then m.depth < |anc| else m.depth == |anc|)
    && Places(m, m.depth, anc, all, clean)
  }

  // A pair of the hash part of the table opened last is.
  predicate Loop(m: Memory, anc: seq<nat>, ids: seq<nat>, all: seq<nat>, clean: set<nat>, shifted: bool) {
    && Slots(m) && Distinct(anc) && Within(anc, ids) && ids <= all
    && (if shifted then m.depth + 1 < |anc| else m.depth + 1 == |anc|)
    && Places(m, m.depth + 1, anc, all, clean)
    && (|anc| < MAX_DEPTH && shifted ==> m.depth !in clean)
  }

  // ------------------------------------------------------------------ at one place

  // A safe reference is read right ...
  lemma SafeMeant(m: Memory, v: Value, anc: seq<nat>, ids: seq<nat>, all: seq<nat>, clean: set<nat>, shifted: bool)
    requires Context(m, anc, ids, all, clean, shifted) && v.Table? && ByAncestor(anc, v.ref) && IndexOf(anc, v.ref) in clean
    ensures var i := IndexOf(anc, v.ref); i < m.depth && m.ancestor[i] < |m.stack| && Meant(m, v, anc, all) == Rename(all, v)
  {
    assert InRange(m, IndexOf(anc, v.ref));
  }

  // ... and no other is read as a table of its own depth or of a lower one.
  lemma UnsafeMeant(m: Memory, v: Value, w: Value, anc: seq<nat>, ids: seq<nat>, all: seq<nat>, clean: set<nat>, shifted: bool)
    requires Context(m, anc, ids, all, clean, shifted)
    requires v.Table? && ByAncestor(anc, v.ref) && IndexOf(anc, v.ref) !in clean
    requires w.Table? && ByAncestor(anc, w.ref) && IndexOf(anc, w.ref) !in clean && IndexOf(anc, w.ref) <= IndexOf(anc, v.ref)
    ensures Meant(m, v, anc, all) != Rename(all, w)
  {
    var i, j := IndexOf(anc, w.ref), IndexOf(anc, v.ref);
    if j < m.depth && InRange(m, j) {
      assert Misses(m, m.depth, anc, all, clean);
      assert At(m, j) != Rename(all, Table(anc[i]));
    }
  }

  // ------------------------------------------------------------ from place to place

  lemma WithinMore(anc: seq<nat>, ids: seq<nat>, ids1: seq<nat>)
    requires Within(anc, ids) && ids <= ids1
    ensures Within(anc, ids1)
  {
    assert forall r | r in ids :: r in ids1;
  }

  lemma ContextOn(m: Memory, t: Memory, anc: seq<nat>, ids: seq<nat>, ids1: seq<nat>, all: seq<nat>, clean: set<nat>, shifted: bool)
    requires Context(m, anc, ids, all, clean, shifted) && Slotted(m, t) && t.stack == m.stack && t.depth == m.depth
    requires ids <= ids1 <= all
    ensures Context(t, anc, ids1, all, clean, shifted)
  {
    WithinMore(anc, ids, ids1);
    assert forall j | 0 <= j < m.depth && InRange(t, j) :: InRange(m, j) && At(m, j) == At(t, j);
    assert forall j | 0 <= j < m.depth && InRange(m, j) :: InRange(t, j);
  }

  // Inside a table met for the first time.
  lemma OpenContext(m: Memory, m0: Memory, r: nat, anc: seq<nat>, ids: seq<nat>, all: seq<nat>, clean: set<nat>, shifted: bool)
    requires Context(m, anc, ids, all, clean, shifted) && New(Table(r), anc, ids) && ids + [r] <= all && Slots(m0)
    requires m0.stack == m.stack + [Table(|ids| + 1)] && m0.depth == m.depth + 1
    requires m0.ancestor == if m.depth < MAX_DEPTH then m.ancestor[m.depth := |m.stack|] else m.ancestor
    ensures Context(m0, anc + [r], ids + [r], all, Inside(clean, shifted, |anc|), shifted)
    ensures |anc + [r]| < MAX_DEPTH && shifted ==> m.depth !in Inside(clean, shifted, |anc|)
  {
    assert Within(anc + [r], ids + [r]);
    if |anc| + 1 < MAX_DEPTH {
      OpenHolds(m, m0, r, anc, ids, all, clean, shifted);
      OpenMisses(m, m0, r, anc, ids, all, clean, shifted);
    }
  }

  lemma OpenHolds(m: Memory, m0: Memory, r: nat, anc: seq<nat>, ids: seq<nat>, all: seq<nat>, clean: set<nat>, shifted: bool)
    requires Context(m, anc, ids, all, clean, shifted) && r !in ids && ids + [r] <= all && |anc| + 1 < MAX_DEPTH
    requires m0.stack == m.stack + [Table(|ids| + 1)] && m0.ancestor == m.ancestor[m.depth := |m.stack|]
    ensures Holds(m0, m.depth + 1, anc + [r], all, Inside(clean, shifted, |anc|))
  {
    hide Rename;
    forall i | i in Inside(clean, shifted, |anc|)
      ensures i < m.depth + 1 && i <= |anc| && InRange(m0, i) && At(m0, i) == Rename(all, Table((anc + [r])[i]))
    {
      if i in clean {
        assert i < m.depth && InRange(m, i) && At(m0, i) == At(m, i);
      } else {
        NewName(all, ids, r);
      }
    }
  }

  lemma OpenMisses(m: Memory, m0: Memory, r: nat, anc: seq<nat>, ids: seq<nat>, all: seq<nat>, clean: set<nat>, shifted: bool)
    requires Context(m, anc, ids, all, clean, shifted) && r !in ids && ids + [r] <= all && |anc| + 1 < MAX_DEPTH
    requires m0.stack == m.stack + [Table(|ids| + 1)] && m0.ancestor == m.ancestor[m.depth := |m.stack|]
    ensures Misses(m0, m.depth + 1, anc + [r], all, Inside(clean, shifted, |anc|))
  {
    hide Rename;
    var inner := Inside(clean, shifted, |anc|);
    forall i, j | 0 <= i <= j < m.depth + 1 && i < |anc + [r]| && i !in inner && j !in inner && InRange(m0, j)
      ensures At(m0, j) != Rename(all, Table((anc + [r])[i]))
    {
      assert i < |anc| && anc[i] in anc;
      if m0.ancestor[j] < |m.stack| {
        assert j < m.depth && InRange(m, j) && At(m0, j) == At(m, j);
      } else {
        OldName(all, ids, anc[i]);
      }
    }
  }

  // From the array part to the hash part.
  lemma LoopContext(m0: Memory, m1: Memory, anc: seq<nat>, ids: seq<nat>, ids1: seq<nat>, all: seq<nat>, clean: set<nat>, shifted: bool)
    requires Context(m0, anc, ids, all, clean, shifted) && 0 < m0.depth && ids <= ids1 <= all
    requires Slotted(m0, m1) && m1.stack == m0.stack && m1.depth == m0.depth
    requires |anc| < MAX_DEPTH && shifted ==> m0.depth - 1 !in clean
    ensures Loop(Shallower(m1), anc, ids1, all, clean, shifted)
  {
    ContextOn(m0, m1, anc, ids, ids1, all, clean, shifted);
    assert forall j: nat :: InRange(Shallower(m1), j) == InRange(m1, j);
    assert forall j: nat | InRange(m1, j) :: At(Shallower(m1), j) == At(m1, j);
  }

  // In a key the own table is out of reach.
  lemma KeyContext(m: Memory, anc: seq<nat>, ids: seq<nat>, all: seq<nat>, clean: set<nat>, shifted: bool)
    requires Loop(m, anc, ids, all, clean, shifted)
    ensures Context(m, anc, ids, all, Beside(clean, anc), true)
  {
    hide Rename;
  }

  // The key can be read right.
  predicate SafeKey(key: Value, anc: seq<nat>, clean: set<nat>) {
    key.Table? && ByAncestor(anc, key.ref) ==> IndexOf(anc, key.ref) in Beside(clean, anc)
  }

  // A key that is read right is none of the tables that are lost.
  lemma KeyIsNone(key: Value, anc: seq<nat>, ids: seq<nat>, all: seq<nat>, clean: set<nat>, i: nat)
    requires SafeKey(key, anc, clean) && i < |anc| < MAX_DEPTH && i !in Beside(clean, anc) && Within(anc, ids) && ids <= all
    requires InStream(all, key) && Distinct(anc)
    ensures Rename(all, key) != Rename(all, Table(anc[i]))
  {
    assert anc[i] in anc;
    OldName(all, ids, anc[i]);
    IndexInPrefix(ids, all, anc[i]);
    if Rename(all, key) == Rename(all, Table(anc[i])) {
      RenameInjective(all, key, Table(anc[i]));
      IndexAt(anc, i);
    }
  }

  // After the key, one level down.
  lemma ValueContext(m: Memory, t: Memory, key: Value, anc: seq<nat>, ids: seq<nat>, ids1: seq<nat>, all: seq<nat>, clean: set<nat>,
                     shifted: bool)
    requires Loop(m, anc, ids, all, clean, shifted) && ids <= ids1 <= all && InStream(all, key) && SafeKey(key, anc, clean)
    requires t.stack == m.stack + [Rename(all, key)] && t.depth == m.depth && Slotted(m, t) && Opens(m, t, New(key, anc, ids))
    ensures Context(Deeper(t), anc, ids1, all, After(clean, anc, ids, key), shifted)
  {
    hide Rename;
    WithinMore(anc, ids, ids1);
    var after, own := After(clean, anc, ids, key), |anc| - 1;
    if |anc| < MAX_DEPTH {
      forall i | i in after
        ensures i < m.depth + 1 && i < |anc| && InRange(Deeper(t), i) && At(Deeper(t), i) == Rename(all, Table(anc[i]))
      {
        assert i in clean && InRange(m, i) && At(m, i) == Rename(all, Table(anc[i]));
        assert t.ancestor[i] == m.ancestor[i];
      }
      forall i, j | 0 <= i <= j < m.depth + 1 && i < |anc| && i !in after && j !in after && InRange(Deeper(t), j)
        ensures At(Deeper(t), j) != Rename(all, Table(anc[i]))
      {
        if t.ancestor[j] < |m.stack| {
          assert t.ancestor[j] == m.ancestor[j] && InRange(m, j) && At(m, j) == At(Deeper(t), j);
          assert i !in clean && j !in clean;
        } else {
          KeyIsNone(key, anc, ids, all, clean, i);
        }
      }
    }
  }

  // After the pair.
  lemma NextContext(m: Memory, t: Memory, x: Memory, key: Value, anc: seq<nat>, ids: seq<nat>, ids2: seq<nat>, all: seq<nat>,
                    clean: set<nat>, shifted: bool)
    requires Loop(m, anc, ids, all, clean, shifted) && ids <= ids2 <= all
    requires |t.stack| > |m.stack| && t.depth == m.depth && Slotted(m, t) && Opens(m, t, New(key, anc, ids))
    requires x.stack == m.stack && x.depth == m.depth && Slotted(Deeper(t), x)
    ensures Loop(x, anc, ids2, all, After(clean, anc, ids, key), shifted)
  {
    hide Rename;
    WithinMore(anc, ids, ids2);
    var after := After(clean, anc, ids, key);
    if |anc| < MAX_DEPTH {
      forall i | i in after
        ensures i < m.depth + 1 && i < |anc| && InRange(x, i) && At(x, i) == Rename(all, Table(anc[i]))
      {
        assert i in clean && InRange(m, i) && At(m, i) == Rename(all, Table(anc[i]));
        assert x.ancestor[i] == t.ancestor[i] == m.ancestor[i];
      }
      forall i, j | 0 <= i <= j < m.depth + 1 && i < |anc| && i !in after && j !in after && InRange(x, j)
        ensures At(x, j) != Rename(all, Table(anc[i]))
      {
        assert x.ancestor[j] == t.ancestor[j] == m.ancestor[j] && InRange(m, j) && At(m, j) == At(x, j);
        assert i !in clean && j !in clean;
      }
    }
  }
}
