// What reading leaves alone, whatever is read: each value goes on top of the
// stack, and the only older table that changes is the one being filled.
module SeriFrame {
  import opened SeriFormat
  import opened SeriPack
  import opened SeriUnpack
  import opened SeriTokens

  // The table on top of the stack is table k.
  predicate OnTop(m: Memory, k: nat) {
    |m.stack| > 0 && m.stack[|m.stack| - 1] == Table(k) && 0 < k <= |m.heap|
  }

  // One level down, where the value of a pair is read.
  function Deeper(m: Memory): Memory {
    m.(depth := m.depth + 1)
  }

  // Between the two loops the depth goes down by one.
  function Shallower(m: Memory): Memory
    requires m.depth > 0
  {
    m.(depth := m.depth - 1)
  }

  // One value more, and no table changed.
  predicate Adds(m: Memory, t: Memory) {
    && |t.stack| == |m.stack| + 1 && t.stack[..|m.stack|] == m.stack
    && |m.heap| <= |t.heap| && t.heap[..|m.heap|] == m.heap
  }

  // No table changed but table k.
  predicate Touches(m: Memory, t: Memory, k: nat) {
    && t.stack == m.stack && 0 < k <= |m.heap| <= |t.heap|
    && t.heap[..|m.heap|] == m.heap[k - 1 := t.heap[k - 1]]
  }

  lemma TouchesOn(m: Memory, t: Memory, u: Memory, k: nat)
    requires Touches(m, t, k) && Touches(t, u, k)
    ensures Touches(m, u, k)
  {
    var n := |m.heap|;
    assert u.heap[..n] == u.heap[..|t.heap|][..n];
    assert t.heap[k - 1 := u.heap[k - 1]][..n] == t.heap[..n][k - 1 := u.heap[k - 1]];
  }

  // What an element leaves when it has been stored.
  lemma StoreAbove(m: Memory, t: Memory, k: nat, key: Value) returns (u: Memory)
    requires OnTop(m, k) && Slots(t) && Adds(m, t)
    ensures |t.stack| >= 2 && Store(t, 1, key, t.stack[|t.stack| - 1]) == Ok(u) && Slots(u)
    ensures Touches(m, u, k) && OnTop(u, k) && |u.heap| == |t.heap| && u.heap == t.heap[k - 1 := u.heap[k - 1]]
    ensures u.toks == t.toks && u.depth == t.depth
  {
    hide Assign;
    var val := t.stack[|t.stack| - 1];
    assert t.stack[|t.stack| - 2] == t.stack[..|m.stack|][|m.stack| - 1] == Table(k);
    u := Store(t, 1, key, val).value;
    assert u.heap[..|m.heap|] == t.heap[..|m.heap|][k - 1 := u.heap[k - 1]];
  }

  // What a pair leaves when it has been stored.
  lemma StoreAbovePair(m: Memory, t: Memory, u: Memory, k: nat) returns (x: Memory)
    requires OnTop(m, k) && Slots(u) && Adds(m, t) && Adds(Deeper(t), u) && u.depth > 0
    ensures |u.stack| >= 3
    ensures Store(Shallower(u), 2, u.stack[|u.stack| - 2], u.stack[|u.stack| - 1]) == Ok(x) && Slots(x)
    ensures Touches(m, x, k) && OnTop(x, k) && |x.heap| == |u.heap| && x.heap == u.heap[k - 1 := x.heap[k - 1]]
    ensures x.toks == u.toks && x.depth == u.depth - 1
  {
    hide Assign;
    var n := |m.heap|;
    assert u.stack[|u.stack| - 3] == u.stack[..|t.stack|][..|m.stack|][|m.stack| - 1] == Table(k);
    assert u.stack[..|u.stack| - 2] == u.stack[..|t.stack|][..|m.stack|];
    assert u.heap[..n] == u.heap[..|t.heap|][..n] == m.heap;
    x := Store(Shallower(u), 2, u.stack[|u.stack| - 2], u.stack[|u.stack| - 1]).value;
    assert x.heap[..n] == u.heap[..n][k - 1 := x.heap[k - 1]];
  }

  lemma ReadArrayUnfold(m: Memory, i: int, n: int, M: set<nat>)
    requires Slots(m) && i <= n
    ensures ReadArray(m, i, n, M) ==
      var r := ReadOne(m, M);
      if r.Invalid? || |r.value.stack| < 2 || !(0 <= i < MAX_SIZE) then Invalid else
      var r2 := Store(r.value, 1, Int(i), r.value.stack[|r.value.stack| - 1]);
      if r2.Invalid? then Invalid else ReadArray(r2.value, i + 1, n, M)
  {
    hide ReadOne, Store;
  }

  lemma {:induction false} FrameOne(m: Memory, M: set<nat>)
    requires Slots(m)
    ensures ReadOne(m, M).Ok? ==> Adds(m, ReadOne(m, M).value)
    decreases |m.toks|, 0
  {
    hide ReadArray, ReadHash;
    if m.toks != [] && m.toks[0].Head? {
      var k, m0 := |m.heap| + 1, Opened(m, m.toks[0].id in M);
      FrameArray(m0, 1, m.toks[0].n, k, M);
      var r := ReadArray(m0, 1, m.toks[0].n, M);
      if r.Ok? {
        FrameHash(Shallower(r.value), k, M);
        var q := ReadHash(Shallower(r.value), M);
        if q.Ok? {
          TouchesOn(m0, r.value, q.value, k);
          assert q.value.heap[..|m.heap|] == q.value.heap[..|m0.heap|][..|m.heap|];
        }
      }
    }
  }

  lemma {:induction false} FrameArray(m: Memory, i: int, n: int, k: nat, M: set<nat>)
    requires Slots(m) && OnTop(m, k)
    ensures ReadArray(m, i, n, M).Ok? ==> Touches(m, ReadArray(m, i, n, M).value, k) && OnTop(ReadArray(m, i, n, M).value, k)
    decreases |m.toks|, 2
  {
    hide ReadOne, ReadArray, Store, Adds;
    if i <= n {
      ReadArrayUnfold(m, i, n, M);
      FrameOne(m, M);
      if ReadOne(m, M).Ok? && 0 <= i < MAX_SIZE {
        var u := StoreAbove(m, ReadOne(m, M).value, k, Int(i));
        FrameArray(u, i + 1, n, k, M);
        var r := ReadArray(u, i + 1, n, M);
        if r.Ok? { TouchesOn(m, u, r.value, k); }
      }
    } else {
      assert ReadArray(m, i, n, M) == Ok(m) by { NoElements(m, i, n, M); }
    }
  }

  lemma NoElements(m: Memory, i: int, n: int, M: set<nat>)
    requires Slots(m) && i > n
    ensures ReadArray(m, i, n, M) == Ok(m)
  {
  }

  lemma {:induction false} FrameHash(m: Memory, k: nat, M: set<nat>)
    requires Slots(m) && OnTop(m, k)
    ensures ReadHash(m, M).Ok? ==> Touches(m, ReadHash(m, M).value, k)
    decreases |m.toks|, 1
  {
    hide ReadOne, ReadHash, Store, Adds;
    FrameOne(m, M);
    ReadHashUnfold(m, M);
    if ReadHash(m, M).Ok? {
      var t := ReadOne(m, M).value;
      if t.stack[|t.stack| - 1] == Nil {
        EndTouches(m, t, k);
      } else {
        FrameOne(Deeper(t), M);
        var x := StoreAbovePair(m, t, ReadOne(Deeper(t), M).value, k);
        FrameHash(x, k, M);
        TouchesOn(m, x, ReadHash(x, M).value, k);
      }
    }
  }

  lemma EndTouches(m: Memory, t: Memory, k: nat)
    requires Adds(m, t) && 0 < k <= |m.heap|
    ensures Touches(m, t.(stack := t.stack[..|t.stack| - 1]), k)
  {
    assert t.heap[..|m.heap|][k - 1] == t.heap[k - 1];
  }

  // ------------------------------------------------------------ closed tables stay

  // From table `from` on, b goes on where a ends.
  predicate Beyond(a: seq<Content>, b: seq<Content>, from: nat) {
    |a| <= |b| && forall q | from <= q < |a| :: b[q] == a[q]
  }

  lemma TouchesBeyond(m: Memory, t: Memory, k: nat)
    requires Touches(m, t, k)
    ensures Beyond(m.heap, t.heap, k)
  {
    forall q | k <= q < |m.heap| ensures t.heap[q] == m.heap[q] {
      assert t.heap[..|m.heap|][q] == t.heap[q];
    }
  }

  // The tables opened for an element stay as they are ...
  lemma ArrayBeyond(m: Memory, i: int, n: int, k: nat, M: set<nat>)
    requires Slots(m) && OnTop(m, k) && i <= n && ReadArray(m, i, n, M).Ok?
    ensures ReadOne(m, M).Ok? && Beyond(ReadOne(m, M).value.heap, ReadArray(m, i, n, M).value.heap, |m.heap|)
  {
    hide ReadOne, ReadArray, Store, Adds, Touches;
    ReadArrayUnfold(m, i, n, M);
    FrameOne(m, M);
    var u := StoreAbove(m, ReadOne(m, M).value, k, Int(i));
    FrameArray(u, i + 1, n, k, M);
    TouchesBeyond(u, ReadArray(u, i + 1, n, M).value, k);
  }

  // ... and so do those opened for a key, or for its value.
  lemma HashBeyond(m: Memory, k: nat, M: set<nat>)
    requires Slots(m) && OnTop(m, k) && ReadHash(m, M).Ok?
    ensures ReadOne(m, M).Ok? && Beyond(ReadOne(m, M).value.heap, ReadHash(m, M).value.heap, |m.heap|)
    ensures var t := ReadOne(m, M).value;
      t.stack[|t.stack| - 1] != Nil ==>
      ReadOne(Deeper(t), M).Ok? && Beyond(ReadOne(Deeper(t), M).value.heap, ReadHash(m, M).value.heap, |m.heap|)
  {
    hide ReadOne, ReadHash, Store, Touches;
    ReadHashUnfold(m, M);
    FrameOne(m, M);
    var t := ReadOne(m, M).value;
    if t.stack[|t.stack| - 1] != Nil {
      FrameOne(Deeper(t), M);
      var u := ReadOne(Deeper(t), M).value;
      var x := StoreAbovePair(m, t, u, k);
      FrameHash(x, k, M);
      var y := ReadHash(x, M).value;
      TouchesBeyond(x, y, k);
      forall q | |m.heap| <= q < |t.heap| ensures y.heap[q] == t.heap[q] {
        assert u.heap[..|t.heap|][q] == u.heap[q];
      }
    }
  }
}
