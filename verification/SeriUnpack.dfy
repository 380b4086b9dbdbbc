// Reading the stream back (src/lua-seri.c, from get_integer to seri_unpack).
//
// The Lua stack is explicit, because the unpacker remembers an open table by
// the stack slot it lives in. New tables are numbered 1, 2, ... in the order
// they are created; table number n is the n-th entry of `heap`.
module SeriUnpack {
  import opened SeriFormat
  import opened SeriPack

  type Content = map<Value, Value>

  datatype State = State(
    rest: bytes,            // what rb_read has not consumed
    stack: seq<Value>,      // the Lua stack above the base of the call
    heap: seq<Content>,     // tables created so far; objectid == |heap|
    marked: set<nat>,       // ids stored in the ref table
    ancestor: seq<nat>,     // MAX_DEPTH stack slots
    depth: nat)

  predicate Fresh(s: State) {
    |s.ancestor| == MAX_DEPTH
  }

  // lua_rawset: assigning nil removes the key.
  function Assign(c: Content, key: Value, val: Value): Content {
    if val == Nil then c - {key} else c[key := val]
  }

  // lua_rawset(L, -3) / lua_rawseti(L, -2, i) on the table below the operands.
  function SetBelow(s: State, below: nat, key: Value, val: Value): (r: Result<State>)
    requires Fresh(s) && below < |s.stack|
    ensures r.Ok? ==> Fresh(r.value) && r.value.rest == s.rest && r.value.depth == s.depth
  {
    var slot := |s.stack| - 1 - below;
    var t := s.stack[slot];
    if t.Table? && 0 < t.ref <= |s.heap| then
      Ok(s.(stack := s.stack[..slot + 1], heap := s.heap[t.ref - 1 := Assign(s.heap[t.ref - 1], key, val)]))
    else Invalid
  }

  // lua_pushvalue: an index above the top stands for nil.
  function StackAt(stack: seq<Value>, i: nat): Value {
    if i < |stack| then stack[i] else Nil
  }

  function Push(s: State, v: Value): State {
    s.(stack := s.stack + [v])
  }

  // unpack_one
  function UnpackOne(s: State): (r: Result<State>)
    requires Fresh(s)
    ensures r.Ok? ==> Fresh(r.value) && |r.value.rest| < |s.rest| && |r.value.stack| >= 1 && r.value.depth == s.depth
    decreases |s.rest|, 0
  {
    if s.rest == [] then Invalid
    else PushValue(s.(rest := s.rest[1..]), s.rest[0] % 8, s.rest[0] / 8)
  }

  // push_value
  function PushValue(s: State, t: int, cookie: int): (r: Result<State>)
    requires Fresh(s) && 0 <= t < 8 && 0 <= cookie < MAX_COOKIE
    ensures r.Ok? ==> Fresh(r.value) && |r.value.rest| <= |s.rest| && |r.value.stack| >= 1 && r.value.depth == s.depth
    decreases |s.rest|, 4
  {
    if t < TYPE_TABLE then
      var p :- DecodeScalar(t, cookie, s.rest);
      Ok(Push(s.(rest := p.rest), p.got))
    else if t == TYPE_REF then UnpackRef(s, cookie)
    else UnpackTable(s, cookie, t)
  }

  // get_extend_integer: a number that is not a double, cast to int
  function ExtendInteger(b: bytes): (r: Result<Read<int>>)
    ensures r.Ok? ==> |r.value.rest| < |b|
  {
    if b == [] then Invalid
    else if b[0] % 8 != TYPE_NUMBER || b[0] / 8 == NUMBER_REAL then Invalid
    else
      var p :- DecodeInt(b[0] / 8, b[1..]);
      Ok(Read(Signed(p.got % 0x1_0000_0000, 0x1_0000_0000), p.rest))
  }

  // unpack_ref
  function UnpackRef(s: State, ref: int): (r: Result<State>)
    requires Fresh(s) && 0 <= ref < MAX_COOKIE
    ensures r.Ok? ==> Fresh(r.value) && |r.value.rest| <= |s.rest| && |r.value.stack| >= 1 && r.value.depth == s.depth
  {
    if ref == EXTEND_NUMBER then
      var p :- ExtendInteger(s.rest);
      if p.got in s.marked then Ok(Push(s.(rest := p.rest), Table(p.got))) else Invalid
    else if ref >= s.depth then Invalid
    else Ok(Push(s, StackAt(s.stack, s.ancestor[ref])))
  }

  // unpack_table
  function UnpackTable(s: State, cookie: int, t: int): (r: Result<State>)
    requires Fresh(s) && 0 <= cookie < MAX_COOKIE
    ensures r.Ok? ==> Fresh(r.value) && |r.value.rest| <= |s.rest| && |r.value.stack| >= 1 && r.value.depth == s.depth
    decreases |s.rest|, 3
  {
    var p :- if cookie == EXTEND_NUMBER then ExtendInteger(s.rest) else Ok(Read(cookie, s.rest));
    var s1 := OpenTable(s.(rest := p.rest), t == TYPE_TABLE_MARK);
    var s2 :- UnpackArray(s1, 1, p.got);
    UnpackHash(s2.(depth := s2.depth - 1))
  }

  // The part of unpack_table before the two loops.
  function OpenTable(s: State, mark: bool): (r: State)
    requires Fresh(s)
    ensures Fresh(r) && r.rest == s.rest && r.depth == s.depth + 1
  {
    var id := |s.heap| + 1;
    s.(stack := s.stack + [Table(id)],
       heap := s.heap + [map[]],
       marked := if mark then s.marked + {id} else s.marked,
       ancestor := if s.depth < MAX_DEPTH then s.ancestor[s.depth := |s.stack|] else s.ancestor,
       depth := s.depth + 1)
  }

  // The loop over the array part: elements i .. n.
  function UnpackArray(s: State, i: int, n: int): (r: Result<State>)
    requires Fresh(s)
    ensures r.Ok? ==> Fresh(r.value) && |r.value.rest| <= |s.rest| && r.value.depth == s.depth
    decreases |s.rest|, 2
  {
    if i > n then Ok(s)
    else
      var s1 :- UnpackOne(s);
      if |s1.stack| < 2 || !(0 <= i < MAX_SIZE) then Invalid else
      var s2 :- SetBelow(s1, 1, Int(i), s1.stack[|s1.stack| - 1]);
      UnpackArray(s2, i + 1, n)
  }

  // The loop over the hash part, until a nil key.
  function UnpackHash(s: State): (r: Result<State>)
    requires Fresh(s)
    ensures r.Ok? ==> Fresh(r.value) && |r.value.rest| <= |s.rest| && |r.value.stack| >= 1 && r.value.depth == s.depth
    decreases |s.rest|, 1
  {
    var s1 :- UnpackOne(s);
    var key := s1.stack[|s1.stack| - 1];
    if key == Nil then
      if |s1.stack| < 2 then Invalid else Ok(s1.(stack := s1.stack[..|s1.stack| - 1]))
    else
      var s2 :- UnpackOne(s1.(depth := s1.depth + 1));
      if |s2.stack| < 3 then Invalid else
      var s3 := s2.(depth := s2.depth - 1);
      var s4 :- SetBelow(s3, 2, s3.stack[|s3.stack| - 2], s3.stack[|s3.stack| - 1]);
      UnpackHash(s4)
  }

  // One round of the loop over the hash part.
  lemma HashUnfold(s: State)
    requires Fresh(s)
    ensures UnpackHash(s) ==
      var r := UnpackOne(s);
      if r.Invalid? then Invalid else
      var s1 := r.value;
      var key := s1.stack[|s1.stack| - 1];
      if key == Nil then
        if |s1.stack| < 2 then Invalid else Ok(s1.(stack := s1.stack[..|s1.stack| - 1]))
      else
        var r2 := UnpackOne(s1.(depth := s1.depth + 1));
        if r2.Invalid? || |r2.value.stack| < 3 then Invalid else
        var s3 := r2.value.(depth := r2.value.depth - 1);
        var r4 := SetBelow(s3, 2, s3.stack[|s3.stack| - 2], s3.stack[|s3.stack| - 1]);
        if r4.Invalid? then Invalid else UnpackHash(r4.value)
  {
    hide UnpackOne, SetBelow;
  }

  // The four ways a round can go.
  lemma HashFails(s: State)
    requires Fresh(s) && UnpackOne(s) == Invalid
    ensures UnpackHash(s) == Invalid
  {
    hide UnpackOne, UnpackHash, SetBelow, Fresh;
    HashUnfold(s);
  }

  lemma HashEnds(s: State, s1: State)
    requires Fresh(s) && UnpackOne(s) == Ok(s1) && s1.stack != [] && s1.stack[|s1.stack| - 1] == Nil
    ensures UnpackHash(s) == if |s1.stack| < 2 then Invalid else Ok(s1.(stack := s1.stack[..|s1.stack| - 1]))
  {
    hide UnpackOne, UnpackHash, SetBelow, Fresh;
    HashUnfold(s);
  }

  lemma PairFails(s: State, s1: State, down: State)
    requires Fresh(s) && UnpackOne(s) == Ok(s1) && s1.stack != [] && s1.stack[|s1.stack| - 1] != Nil
    requires Fresh(s1) && down == s1.(depth := s1.depth + 1)
    requires UnpackOne(down).Invalid? || |UnpackOne(down).value.stack| < 3
    ensures UnpackHash(s) == Invalid
  {
    hide UnpackOne, UnpackHash, SetBelow, Fresh;
    HashUnfold(s);
  }

  lemma PairGoes(s: State, s1: State, down: State, s2: State, s3: State, r: Result<State>)
    requires Fresh(s) && UnpackOne(s) == Ok(s1) && s1.stack != [] && s1.stack[|s1.stack| - 1] != Nil
    requires Fresh(s1) && down == s1.(depth := s1.depth + 1)
    requires UnpackOne(down) == Ok(s2) && |s2.stack| >= 3 && s2.depth > 0 && Fresh(s2) && s3 == s2.(depth := s2.depth - 1)
    requires r == SetBelow(s3, 2, s3.stack[|s3.stack| - 2], s3.stack[|s3.stack| - 1])
    ensures r.Invalid? ==> UnpackHash(s) == Invalid
    ensures r.Ok? ==> UnpackHash(s) == UnpackHash(r.value)
  {
    hide UnpackOne, UnpackHash, SetBelow, Fresh;
    HashUnfold(s);
  }

  function Start(b: bytes): (s: State)
    ensures Fresh(s)
  {
    State(b, [], [], {}, seq(MAX_DEPTH, _ => 0), 0)
  }

  // seri_unpack: values until the stream is used up.
  function UnpackAll(s: State): (r: Result<State>)
    requires Fresh(s)
    ensures r.Ok? ==> r.value.rest == []
    decreases |s.rest|
  {
    if s.rest == [] then Ok(s)
    else
      var s1 :- UnpackOne(s);
      UnpackAll(s1)
  }

  // seri_unpack on a whole message: a 4-byte length and that many bytes.
  function UnpackMessage(b: bytes): (r: Result<State>)
    ensures r.Ok? ==> r.value.rest == []
  {
    var p :- Take(b, 4);
    var len := Signed(FromLE(p.got), 0x1_0000_0000);
    if len < 0 then Invalid else
    var q :- Take(p.rest, len);
    UnpackAll(Start(q.got))
  }

  lemma MessageBody(stream: bytes)
    requires |stream| < MAX_SIZE
    ensures UnpackMessage(LE(4, |stream|) + stream) == UnpackAll(Start(stream))
  {
    hide UnpackAll, FromLE, LE, Start, Pow256;
    Powers();
    LERoundTrip(4, |stream|);
    var b := LE(4, |stream|) + stream;
    assert b[..4] == LE(4, |stream|) && b[4..] == stream && stream[..|stream|] == stream;
  }
}
