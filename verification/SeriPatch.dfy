// Why patching one byte is enough: a table's tag is the only byte of the
// stream that depends on whether the table is referenced by id.
module SeriPatch {
  import opened SeriFormat
  import opened SeriPack

  // The numbers of the tables opened so far, in stream order.
  function Heads(toks: seq<Token>): seq<nat> {
    if toks == [] then []
    else if toks[0].Head? then [toks[0].id] + Heads(toks[1..])
    else Heads(toks[1..])
  }

  // Where in the stream the tag of table `id` is.
  function Offset(toks: seq<Token>, id: nat): nat
    requires id in Heads(toks)
  {
    if toks[0].Head? && toks[0].id == id then 0
    else |EncodeToken(toks[0], {})| + Offset(toks[1..], id)
  }

  predicate Numbers(ids: seq<nat>, n: nat) {
    |ids| == n && forall i | 0 <= i < n :: ids[i] == i + 1
  }

  lemma {:induction false} HeadsConcat(xs: seq<Token>, ys: seq<Token>)
    ensures Heads(xs + ys) == Heads(xs) + Heads(ys)
  {
    if xs == [] {
      assert xs + ys == ys;
    } else {
      assert (xs + ys)[0] == xs[0] && (xs + ys)[1..] == xs[1..] + ys;
      HeadsConcat(xs[1..], ys);
    }
  }

  lemma {:induction false} OffsetKept(xs: seq<Token>, ys: seq<Token>, id: nat)
    requires id in Heads(xs)
    ensures id in Heads(xs + ys) && Offset(xs + ys, id) == Offset(xs, id)
  {
    HeadsConcat(xs, ys);
    assert (xs + ys)[1..] == xs[1..] + ys;
    if !(xs[0].Head? && xs[0].id == id) { OffsetKept(xs[1..], ys, id); }
  }

  lemma SameLength(t: Token, M: set<nat>)
    ensures |EncodeToken(t, M)| == |EncodeToken(t, {})|
  {
  }

  lemma {:induction false} OffsetOfNext(toks: seq<Token>, id: nat, n: size, M: set<nat>)
    requires id !in Heads(toks)
    ensures id in Heads(toks + [Head(id, n)]) && Offset(toks + [Head(id, n)], id) == |Render(toks, M)|
  {
    HeadsConcat(toks, [Head(id, n)]);
    if toks == [] {
      assert toks + [Head(id, n)] == [Head(id, n)];
    } else {
      assert (toks + [Head(id, n)])[1..] == toks[1..] + [Head(id, n)];
      SameLength(toks[0], M);
      OffsetOfNext(toks[1..], id, n, M);
    }
  }

  lemma {:induction false} UnaffectedByMark(toks: seq<Token>, M: set<nat>, id: nat)
    requires id !in Heads(toks)
    ensures Render(toks, M + {id}) == Render(toks, M)
  {
    if toks != [] { UnaffectedByMark(toks[1..], M, id); }
  }

  function Patched(b: bytes, at: nat): bytes
    requires at < |b|
  {
    b[at := Combine(TYPE_TABLE_MARK, b[at] / 8)]
  }

  lemma PatchHead(n: size, tail: bytes)
    ensures var b := EncodeHead(n, false) + tail;
      b[0] % 8 == TYPE_TABLE && Patched(b, 0) == EncodeHead(n, true) + tail
  {
  }

  lemma PatchLater(a: bytes, b: bytes, at: nat)
    requires at < |b|
    ensures (a + b)[|a| + at] == b[at] && Patched(a + b, |a| + at) == a + Patched(b, at)
  {
  }

  // change_mark turns the stream for M into the stream for M + {id}, and finds
  // the tag it asserts.
  lemma {:induction false} PatchRender(toks: seq<Token>, M: set<nat>, id: nat)
    requires Distinct(Heads(toks)) && id in Heads(toks) && id !in M
    ensures var at, b := Offset(toks, id), Render(toks, M);
      at < |b| && b[at] % 8 == TYPE_TABLE && Render(toks, M + {id}) == Patched(b, at)
  {
    var t, rest := toks[0], toks[1..];
    assert Distinct(Heads(rest)) by {
      if t.Head? { assert Heads(toks)[1..] == Heads(rest); } else { assert Heads(toks) == Heads(rest); }
    }
    if t.Head? && t.id == id {
      assert id !in Heads(rest) by {
        var ids := Heads(toks);
        forall i | 0 <= i < |Heads(rest)| ensures Heads(rest)[i] != id {
          assert ids[0] != ids[i + 1];
        }
      }
      UnaffectedByMark(rest, M, id);
      PatchHead(t.n, Render(rest, M));
    } else {
      hide EncodeToken;
      PatchRender(rest, M, id);
      SameLength(t, M);
      SameToken(t, M, id);
      PatchLater(EncodeToken(t, M), Render(rest, M), Offset(rest, id));
    }
  }

  lemma SameToken(t: Token, M: set<nat>, id: nat)
    requires !(t.Head? && t.id == id)
    ensures EncodeToken(t, M + {id}) == EncodeToken(t, M)
  {
  }

  // Writing one more token, after the patch an Object calls for.
  lemma WriteToken(toks: seq<Token>, t: Token)
    ensures Referenced(toks + [t]) == Referenced(toks) + (if t.Object? then {t.id} else {})
    ensures Render(toks + [t], Referenced(toks + [t])) ==
      Render(toks, Referenced(toks + [t])) + EncodeToken(t, Referenced(toks + [t]))
  {
    RenderConcat(toks, [t], Referenced(toks + [t]));
    assert [t][1..] == [];
    assert Render([t], Referenced(toks + [t])) == EncodeToken(t, Referenced(toks + [t])) + [];
  }
}
