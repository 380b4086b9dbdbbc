// The reader on tokens instead of bytes: the same steps, with the decoding
// left out. What it does is what the reader of bytes does.
module SeriTokens {
  import opened SeriFormat
  import opened SeriPack
  import opened SeriUnpack

  // State, with the tokens still to be read.
  datatype Memory = Memory(
    toks: seq<Token>, stack: seq<Value>, heap: seq<Content>, marked: set<nat>, ancestor: seq<nat>, depth: nat)

  predicate Slots(m: Memory) {
    |m.ancestor| == MAX_DEPTH
  }

  function Pushed(m: Memory, v: Value): Memory
    requires m.toks != []
  {
    m.(toks := m.toks[1..], stack := m.stack + [v])
  }

  // SetBelow
  function Store(m: Memory, below: nat, key: Value, val: Value): (r: Result<Memory>)
    requires Slots(m) && below < |m.stack|
    ensures r.Ok? ==> Slots(r.value) && r.value.toks == m.toks && r.value.depth == m.depth
  {
    var slot := |m.stack| - 1 - below;
    var t := m.stack[slot];
    if t.Table? && 0 < t.ref <= |m.heap| then
      Ok(m.(stack := m.stack[..slot + 1], heap := m.heap[t.ref - 1 := Assign(m.heap[t.ref - 1], key, val)]))
    else Invalid
  }

  // OpenTable
  function Opened(m: Memory, mark: bool): (r: Memory)
    requires Slots(m) && m.toks != []
    ensures Slots(r) && r.toks == m.toks[1..] && r.depth == m.depth + 1
  {
    var id := |m.heap| + 1;
    m.(toks := m.toks[1..],
       stack := m.stack + [Table(id)],
       heap := m.heap + [map[]],
       marked := if mark then m.marked + {id} else m.marked,
       ancestor := if m.depth < MAX_DEPTH then m.ancestor[m.depth := |m.stack|] else m.ancestor,
       depth := m.depth + 1)
  }

  // UnpackOne. `M` are the ids of tables with a marked tag.
  function ReadOne(m: Memory, M: set<nat>): (r: Result<Memory>)
    requires Slots(m)
    ensures r.Ok? ==> Slots(r.value) && |r.value.toks| < |m.toks| && |r.value.stack| >= 1 && r.value.depth == m.depth
    decreases |m.toks|, 0
  {
    if m.toks == [] then Invalid
    else match m.toks[0]
      case Scalar(v) => Ok(Pushed(m, v))
      case Head(id, n) =>
        var m1 :- ReadArray(Opened(m, id in M), 1, n, M);
        ReadHash(m1.(depth := m1.depth - 1), M)
      case Ancestor(i) =>
        if i < m.depth && i < MAX_DEPTH then Ok(Pushed(m, StackAt(m.stack, m.ancestor[i]))) else Invalid
      case Object(id) => if id in m.marked then Ok(Pushed(m, Table(id))) else Invalid
  }

  // UnpackArray
  function ReadArray(m: Memory, i: int, n: int, M: set<nat>): (r: Result<Memory>)
    requires Slots(m)
    ensures r.Ok? ==> Slots(r.value) && |r.value.toks| <= |m.toks| && r.value.depth == m.depth
    decreases |m.toks|, 2
  {
    if i > n then Ok(m)
    else
      var m1 :- ReadOne(m, M);
      if |m1.stack| < 2 || !(0 <= i < MAX_SIZE) then Invalid else
      var m2 :- Store(m1, 1, Int(i), m1.stack[|m1.stack| - 1]);
      ReadArray(m2, i + 1, n, M)
  }

  // UnpackHash
  function ReadHash(m: Memory, M: set<nat>): (r: Result<Memory>)
    requires Slots(m)
    ensures r.Ok? ==> Slots(r.value) && |r.value.toks| <= |m.toks| && |r.value.stack| >= 1 && r.value.depth == m.depth
    decreases |m.toks|, 1
  {
    var m1 :- ReadOne(m, M);
    var key := m1.stack[|m1.stack| - 1];
    if key == Nil then
      if |m1.stack| < 2 then Invalid else Ok(m1.(stack := m1.stack[..|m1.stack| - 1]))
    else
      var m2 :- ReadOne(m1.(depth := m1.depth + 1), M);
      if |m2.stack| < 3 then Invalid else
      var m3 := m2.(depth := m2.depth - 1);
      var m4 :- Store(m3, 2, m3.stack[|m3.stack| - 2], m3.stack[|m3.stack| - 1]);
      ReadHash(m4, M)
  }

  // UnpackAll
  function ReadAll(m: Memory, M: set<nat>): (r: Result<Memory>)
    requires Slots(m)
    decreases |m.toks|
  {
    if m.toks == [] then Ok(m)
    else
      var m1 :- ReadOne(m, M);
      ReadAll(m1, M)
  }

  function StartAt(toks: seq<Token>): (m: Memory)
    ensures Slots(m)
  {
    Memory(toks, [], [], {}, seq(MAX_DEPTH, _ => 0), 0)
  }

  // ------------------------------------------------------------- single reads

  // A token whose numbers fit the C int the source stores them in, and whose
  // reference is to a marked table.
  predicate Fits(t: Token, M: set<nat>) {
    match t
    case Scalar(v) => SmallScalar(v)
    case Head(id, _) => id < MAX_SIZE
    case Ancestor(i) => i < EXTEND_NUMBER
    case Object(id) => id < MAX_SIZE && id in M
  }

  predicate AllFit(toks: seq<Token>, M: set<nat>) {
    forall t | t in toks :: Fits(t, M)
  }

  lemma ExtendRoundTrip(n: size, tail: bytes)
    ensures ExtendInteger(EncodeInt(n) + tail) == Ok(Read(n, tail))
  {
    IntRoundTrip(n, tail);
    assert (EncodeInt(n) + tail)[1..] == EncodeInt(n)[1..] + tail;
  }

  lemma ReadTag(s: State, t: int, cookie: int, tail: bytes)
    requires Fresh(s) && 0 <= t < 8 && 0 <= cookie < MAX_COOKIE
    requires s.rest == [Combine(t, cookie)] + tail
    ensures UnpackOne(s) == PushValue(s.(rest := tail), t, cookie)
  {
    hide PushValue;
    assert s.rest[1..] == tail;
    assert s.rest[0] % 8 == t && s.rest[0] / 8 == cookie;
  }

  lemma PushScalar(s: State, t: int, cookie: int)
    requires Fresh(s) && 0 <= t < TYPE_TABLE && 0 <= cookie < MAX_COOKIE
    ensures PushValue(s, t, cookie) ==
      var p := DecodeScalar(t, cookie, s.rest);
      if p.Invalid? then Invalid else Ok(Push(s.(rest := p.value.rest), p.value.got))
  {
    hide DecodeScalar;
  }

  lemma ReadScalar(s: State, v: Value, tail: bytes)
    requires Fresh(s) && SmallScalar(v) && s.rest == EncodeScalar(v) + tail
    ensures UnpackOne(s) == Ok(Push(s.(rest := tail), v))
  {
    hide DecodeScalar, EncodeScalar, UnpackOne, PushValue;
    ScalarRoundTrip(v, tail);
    var e := EncodeScalar(v);
    var t, cookie, rest := e[0] % 8, e[0] / 8, e[1..] + tail;
    assert s.rest == [Combine(t, cookie)] + rest;
    ReadTag(s, t, cookie, rest);
    PushScalar(s.(rest := rest), t, cookie);
  }

  lemma PushTable(s: State, t: int, cookie: int)
    requires Fresh(s) && (t == TYPE_TABLE || t == TYPE_TABLE_MARK) && 0 <= cookie < MAX_COOKIE
    ensures PushValue(s, t, cookie) == UnpackTable(s, cookie, t)
  {
    hide UnpackTable;
  }

  lemma TableBody(s: State, t: int, n: size, tail: bytes)
    requires Fresh(s) && (t == TYPE_TABLE || t == TYPE_TABLE_MARK)
    requires s.rest == (if n >= EXTEND_NUMBER then EncodeInt(n) + tail else tail)
    ensures UnpackTable(s, if n >= EXTEND_NUMBER then EXTEND_NUMBER else n, t) ==
      var s2 := UnpackArray(OpenTable(s.(rest := tail), t == TYPE_TABLE_MARK), 1, n);
      if s2.Invalid? then Invalid else UnpackHash(s2.value.(depth := s2.value.depth - 1))
  {
    ExtendRoundTrip(n, tail);
    hide UnpackArray, UnpackHash, OpenTable, ExtendInteger, EncodeInt;
  }

  lemma ReadHead(s: State, n: size, mark: bool, tail: bytes)
    requires Fresh(s) && s.rest == EncodeHead(n, mark) + tail
    ensures UnpackOne(s) ==
      var s2 := UnpackArray(OpenTable(s.(rest := tail), mark), 1, n);
      if s2.Invalid? then Invalid else UnpackHash(s2.value.(depth := s2.value.depth - 1))
  {
    hide UnpackArray, UnpackHash, OpenTable, ExtendInteger, UnpackOne, PushValue, EncodeInt, UnpackTable;
    var t := if mark then TYPE_TABLE_MARK else TYPE_TABLE;
    var cookie := if n >= EXTEND_NUMBER then EXTEND_NUMBER else n;
    var rest := if n >= EXTEND_NUMBER then EncodeInt(n) + tail else tail;
    assert s.rest == [Combine(t, cookie)] + rest;
    ReadTag(s, t, cookie, rest);
    PushTable(s.(rest := rest), t, cookie);
    TableBody(s.(rest := rest), t, n, tail);
    assert s.(rest := rest).(rest := tail) == s.(rest := tail);
  }

  lemma ReadAncestor(s: State, i: nat, tail: bytes)
    requires Fresh(s) && i < EXTEND_NUMBER && s.rest == [Combine(TYPE_REF, i)] + tail
    ensures UnpackOne(s) ==
      if i < s.depth then Ok(Push(s.(rest := tail), StackAt(s.stack, s.ancestor[i]))) else Invalid
  {
    ReadTag(s, TYPE_REF, i, tail);
  }

  lemma ReadObject(s: State, id: size, tail: bytes)
    requires Fresh(s) && s.rest == [Combine(TYPE_REF, EXTEND_NUMBER)] + EncodeInt(id) + tail
    ensures UnpackOne(s) == if id in s.marked then Ok(Push(s.(rest := tail), Table(id))) else Invalid
  {
    var rest := EncodeInt(id) + tail;
    assert s.rest == [Combine(TYPE_REF, EXTEND_NUMBER)] + rest;
    ReadTag(s, TYPE_REF, EXTEND_NUMBER, rest);
    ExtendRoundTrip(id, tail);
    hide ExtendInteger, EncodeInt;
    assert s.(rest := rest).(rest := tail) == s.(rest := tail);
  }

  // Sizes and numbers of tables are written as short as can be: no bytes that
  // read as n are fewer.
  lemma ExtendNarrowest(n: size, b: bytes)
    requires ExtendInteger(b) == Ok(Read(n, []))
    ensures |EncodeInt(n)| <= |b|
  {
    hide DecodeInt, EncodeInt, DenotesInt;
    var i := DecodeInt(b[0] / 8, b[1..]).value.got;
    assert b[1..] + [] == b[1..];
    IntReadsExactly(b[0] / 8, b[1..], i, b[1..], []);
    if i == n {
      IntNarrowest(n, b[0] / 8, b[1..]);
    } else {
      WideOnly(i, n, b[0] / 8, b[1..]);
    }
  }

  // Only eight bytes hold a number that is cut down to another.
  lemma WideOnly(i: int64, n: size, cookie: int, payload: bytes)
    requires DenotesInt(cookie, payload, i) && i != n && Signed(i % 0x1_0000_0000, 0x1_0000_0000) == n
    ensures |payload| == 8 && |EncodeInt(n)| <= 9
  {
    hide FromLE, LE;
    Powers();
    FromLEBound(payload);
  }

  lemma HeadNarrowest(n: size, mark: bool, cookie: int, b: bytes)
    requires 0 <= cookie < MAX_COOKIE
    requires if cookie == EXTEND_NUMBER then ExtendInteger(b) == Ok(Read(n, [])) else n == cookie
    ensures |EncodeHead(n, mark)| <= 1 + |b|
  {
    hide EncodeInt, ExtendInteger;
    if cookie == EXTEND_NUMBER { ExtendNarrowest(n, b); }
  }

  // --------------------------------------------------- the same on both levels

  function Bytes(m: Memory, M: set<nat>): State {
    State(Render(m.toks, M), m.stack, m.heap, m.marked, m.ancestor, m.depth)
  }

  function BytesOf(r: Result<Memory>, M: set<nat>): Result<State> {
    if r.Ok? then Ok(Bytes(r.value, M)) else Invalid
  }

  // The two readers agree, and stop at a place where they can go on.
  ghost predicate Agree(r: Result<State>, q: Result<Memory>, M: set<nat>) {
    r == BytesOf(q, M) && (q.Ok? ==> AllFit(q.value.toks, M))
  }

  lemma FitTail(toks: seq<Token>, M: set<nat>)
    requires AllFit(toks, M) && toks != []
    ensures Fits(toks[0], M) && AllFit(toks[1..], M)
  {
    hide Fits;
    assert toks[0] in toks && forall t | t in toks[1..] :: t in toks;
  }

  lemma StoreAgrees(m: Memory, M: set<nat>, below: nat, key: Value, val: Value)
    requires Slots(m) && below < |m.stack| && AllFit(m.toks, M)
    ensures Agree(SetBelow(Bytes(m, M), below, key, val), Store(m, below, key, val), M)
  {
    hide Render, Assign, AllFit;
  }

  lemma OpenAgrees(m: Memory, M: set<nat>, mark: bool)
    requires Slots(m) && m.toks != []
    ensures OpenTable(Bytes(m.(toks := m.toks[1..]), M), mark) == Bytes(Opened(m, mark), M)
  {
    hide Render;
  }

  lemma LeafAgrees(m: Memory, M: set<nat>)
    requires Slots(m) && AllFit(m.toks, M) && (m.toks == [] || !m.toks[0].Head?)
    ensures Agree(UnpackOne(Bytes(m, M)), ReadOne(m, M), M)
  {
    hide EncodeScalar, UnpackOne, AllFit;
    if m.toks == [] {
      NoBytes(m, M);
    } else {
      FitTail(m.toks, M);
      var s, tail := Bytes(m, M), Render(m.toks[1..], M);
      match m.toks[0] {
        case Scalar(v) => ReadScalar(s, v, tail);
        case Ancestor(i) => ReadAncestor(s, i, tail);
        case Object(id) => ReadObject(s, id, tail);
      }
    }
  }

  lemma NoBytes(m: Memory, M: set<nat>)
    requires Slots(m) && m.toks == []
    ensures UnpackOne(Bytes(m, M)) == Invalid
  {
  }

  lemma {:induction false} OneAgrees(m: Memory, M: set<nat>)
    requires Slots(m) && AllFit(m.toks, M)
    ensures Agree(UnpackOne(Bytes(m, M)), ReadOne(m, M), M)
    decreases |m.toks|, 0
  {
    hide UnpackOne, UnpackArray, UnpackHash, ReadArray, ReadHash, AllFit, OpenTable, Opened;
    if m.toks == [] || !m.toks[0].Head? {
      LeafAgrees(m, M);
    } else {
      FitTail(m.toks, M);
      var Head(id, n) := m.toks[0];
      ReadHead(Bytes(m, M), n, id in M, Render(m.toks[1..], M));
      OpenAgrees(m, M, id in M);
      var m1 := Opened(m, id in M);
      ArrayAgrees(m1, 1, n, M);
      var q := ReadArray(m1, 1, n, M);
      if q.Ok? { HashAgrees(q.value.(depth := q.value.depth - 1), M); }
    }
  }

  lemma {:induction false} ArrayAgrees(m: Memory, i: int, n: int, M: set<nat>)
    requires Slots(m) && AllFit(m.toks, M)
    ensures Agree(UnpackArray(Bytes(m, M), i, n), ReadArray(m, i, n, M), M)
    decreases |m.toks|, 2
  {
    hide UnpackOne, ReadOne, AllFit, Render, SetBelow, Store;
    if i <= n {
      OneAgrees(m, M);
      var q := ReadOne(m, M);
      if q.Ok? && |q.value.stack| >= 2 && 0 <= i < MAX_SIZE {
        var m1 := q.value;
        StoreAgrees(m1, M, 1, Int(i), m1.stack[|m1.stack| - 1]);
        var q2 := Store(m1, 1, Int(i), m1.stack[|m1.stack| - 1]);
        if q2.Ok? { ArrayAgrees(q2.value, i + 1, n, M); }
      }
    }
  }

  lemma ReadHashUnfold(m: Memory, M: set<nat>)
    requires Slots(m)
    ensures ReadHash(m, M) ==
      var r := ReadOne(m, M);
      if r.Invalid? then Invalid else
      var m1 := r.value;
      var key := m1.stack[|m1.stack| - 1];
      if key == Nil then
        if |m1.stack| < 2 then Invalid else Ok(m1.(stack := m1.stack[..|m1.stack| - 1]))
      else
        var r2 := ReadOne(m1.(depth := m1.depth + 1), M);
        if r2.Invalid? || |r2.value.stack| < 3 then Invalid else
        var m3 := r2.value.(depth := r2.value.depth - 1);
        var r4 := Store(m3, 2, m3.stack[|m3.stack| - 2], m3.stack[|m3.stack| - 1]);
        if r4.Invalid? then Invalid else ReadHash(r4.value, M)
  {
    hide ReadOne, Store;
  }

  lemma {:induction false} HashAgrees(m: Memory, M: set<nat>)
    requires Slots(m) && AllFit(m.toks, M)
    ensures Agree(UnpackHash(Bytes(m, M)), ReadHash(m, M), M)
    decreases |m.toks|, 1
  {
    hide UnpackOne, ReadOne, UnpackHash, ReadHash, AllFit, Render, SetBelow, Store;
    OneAgrees(m, M);
    if ReadOne(m, M).Ok? && ReadOne(m, M).value.stack[|ReadOne(m, M).value.stack| - 1] != Nil {
      PairAgrees(m, M, ReadOne(m, M).value);
    } else {
      HashUnfold(Bytes(m, M));
      ReadHashUnfold(m, M);
    }
  }

  lemma {:induction false} PairAgrees(m: Memory, M: set<nat>, m1: Memory)
    requires Slots(m) && Slots(m1) && ReadOne(m, M) == Ok(m1) && UnpackOne(Bytes(m, M)) == Ok(Bytes(m1, M)) && AllFit(m1.toks, M)
    requires |m1.toks| < |m.toks| && m1.stack != [] && m1.stack[|m1.stack| - 1] != Nil
    ensures Agree(UnpackHash(Bytes(m, M)), ReadHash(m, M), M)
    decreases |m.toks|, 0
  {
    hide UnpackOne, ReadOne, UnpackHash, ReadHash, AllFit, Render, SetBelow, Store;
    var down := m1.(depth := m1.depth + 1);
    OneAgrees(down, M);
    HashUnfold(Bytes(m, M));
    ReadHashUnfold(m, M);
    var r := ReadOne(down, M);
    if r.Ok? && |r.value.stack| >= 3 {
      var m3 := r.value.(depth := r.value.depth - 1);
      var key, val := m3.stack[|m3.stack| - 2], m3.stack[|m3.stack| - 1];
      StoreAgrees(m3, M, 2, key, val);
      var r4 := Store(m3, 2, key, val);
      if r4.Ok? { HashAgrees(r4.value, M); }
    }
  }

  // Reading the bytes of a token list is reading the tokens.
  lemma {:induction false} AllAgree(m: Memory, M: set<nat>)
    requires Slots(m) && AllFit(m.toks, M)
    ensures Agree(UnpackAll(Bytes(m, M)), ReadAll(m, M), M)
    decreases |m.toks|
  {
    hide UnpackOne, ReadOne, AllFit;
    if m.toks == [] {
    } else {
      SomeBytes(m.toks, M);
      OneAgrees(m, M);
      if ReadOne(m, M).Ok? { AllAgree(ReadOne(m, M).value, M); }
    }
  }

  lemma SomeBytes(toks: seq<Token>, M: set<nat>)
    requires toks != []
    ensures Render(toks, M) != []
  {
  }
}
