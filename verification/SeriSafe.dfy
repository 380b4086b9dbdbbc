// What holds of the reader whatever the bytes are: it never makes up a table.
module SeriSafe {
  import opened SeriFormat
  import opened SeriPack
  import opened SeriUnpack

  // A table that has been created.
  predicate Created(v: Value, n: nat) {
    v.Table? ==> 0 < v.ref <= n
  }

  predicate AllCreated(vs: seq<Value>, n: nat) {
    forall v | v in vs :: Created(v, n)
  }

  predicate HoldsCreated(c: Content, n: nat) {
    forall k | k in c :: Created(k, n) && Created(c[k], n)
  }

  predicate TablesSound(heap: seq<Content>, n: nat) {
    forall i | 0 <= i < |heap| :: HoldsCreated(heap[i], n)
  }

  // No reference leads nowhere.
  ghost predicate Sound(s: State) {
    && AllCreated(s.stack, |s.heap|) && TablesSound(s.heap, |s.heap|)
    && forall id | id in s.marked :: 0 < id <= |s.heap|
  }

  ghost predicate SoundOr(r: Result<State>) {
    r.Ok? ==> Sound(r.value)
  }

  lemma PushSound(s: State, v: Value)
    requires Sound(s) && Created(v, |s.heap|)
    ensures Sound(Push(s, v))
  {
  }

  lemma OpenSound(s: State, mark: bool)
    requires Fresh(s) && Sound(s)
    ensures Sound(OpenTable(s, mark))
  {
    var t, n := OpenTable(s, mark), |s.heap|;
    forall i | 0 <= i < |t.heap| ensures HoldsCreated(t.heap[i], n + 1) {
      if i < n { assert HoldsCreated(s.heap[i], n); }
    }
    forall v | v in t.stack ensures Created(v, n + 1) {
      if v in s.stack { assert Created(v, n); }
    }
  }

  lemma AssignSound(c: Content, key: Value, val: Value, n: nat)
    requires HoldsCreated(c, n) && Created(key, n) && Created(val, n)
    ensures HoldsCreated(Assign(c, key, val), n)
  {
  }

  lemma SetSound(s: State, below: nat, key: Value, val: Value)
    requires Fresh(s) && Sound(s) && below < |s.stack| && Created(key, |s.heap|) && Created(val, |s.heap|)
    ensures SoundOr(SetBelow(s, below, key, val))
  {
    hide Assign;
    var r, slot := SetBelow(s, below, key, val), |s.stack| - 1 - below;
    if r.Ok? {
      var k := s.stack[slot].ref - 1;
      assert HoldsCreated(s.heap[k], |s.heap|);
      AssignSound(s.heap[k], key, val, |s.heap|);
      forall v | v in r.value.stack ensures Created(v, |s.heap|) { assert v in s.stack; }
    }
  }

  lemma RefSound(s: State, ref: int)
    requires Fresh(s) && Sound(s) && 0 <= ref < MAX_COOKIE
    ensures SoundOr(UnpackRef(s, ref))
  {
    hide ExtendInteger;
    if ref != EXTEND_NUMBER && ref < s.depth {
      if s.ancestor[ref] < |s.stack| { assert s.stack[s.ancestor[ref]] in s.stack; }
      PushSound(s, StackAt(s.stack, s.ancestor[ref]));
    }
  }

  lemma ScalarSound(s: State, t: int, cookie: int)
    requires Fresh(s) && Sound(s) && 0 <= t < TYPE_TABLE && 0 <= cookie < MAX_COOKIE
    ensures SoundOr(PushValue(s, t, cookie))
  {
    hide DecodeScalar;
  }

  lemma {:induction false} OneSound(s: State)
    requires Fresh(s) && Sound(s)
    ensures SoundOr(UnpackOne(s))
    decreases |s.rest|, 0
  {
    hide PushValue, Sound;
    if s.rest != [] {
      var u := s.(rest := s.rest[1..]);
      RestSound(s, u.rest);
      ValueSound(u, s.rest[0] % 8, s.rest[0] / 8);
    }
  }

  lemma RestSound(s: State, rest: bytes)
    requires Sound(s)
    ensures Sound(s.(rest := rest))
  {
  }

  lemma DepthSound(s: State, depth: nat)
    requires Sound(s)
    ensures Sound(s.(depth := depth))
  {
  }

  lemma {:induction false} ValueSound(s: State, t: int, cookie: int)
    requires Fresh(s) && Sound(s) && 0 <= t < 8 && 0 <= cookie < MAX_COOKIE
    ensures SoundOr(PushValue(s, t, cookie))
    decreases |s.rest|, 4
  {
    hide UnpackTable, UnpackRef, Sound, DecodeScalar;
    if t < TYPE_TABLE {
      ScalarSound(s, t, cookie);
    } else if t == TYPE_REF {
      RefSound(s, cookie);
    } else {
      TableSound(s, cookie, t);
    }
  }

  lemma {:induction false} TableSound(s: State, cookie: int, t: int)
    requires Fresh(s) && Sound(s) && 0 <= cookie < MAX_COOKIE
    ensures SoundOr(UnpackTable(s, cookie, t))
    decreases |s.rest|, 3
  {
    hide UnpackArray, UnpackHash, ExtendInteger, OpenTable, Sound;
    var p := if cookie == EXTEND_NUMBER then ExtendInteger(s.rest) else Ok(Read(cookie, s.rest));
    if p.Ok? {
      RestSound(s, p.value.rest);
      var s1 := OpenTable(s.(rest := p.value.rest), t == TYPE_TABLE_MARK);
      OpenSound(s.(rest := p.value.rest), t == TYPE_TABLE_MARK);
      ArraySound(s1, 1, p.value.got);
      var r := UnpackArray(s1, 1, p.value.got);
      if r.Ok? {
        DepthSound(r.value, r.value.depth - 1);
        HashSound(r.value.(depth := r.value.depth - 1));
      }
    }
  }

  lemma TopSound(s: State, k: nat)
    requires Sound(s) && k < |s.stack|
    ensures Created(s.stack[k], |s.heap|)
  {
  }

  lemma {:induction false} ArraySound(s: State, i: int, n: int)
    requires Fresh(s) && Sound(s)
    ensures SoundOr(UnpackArray(s, i, n))
    decreases |s.rest|, 2
  {
    hide UnpackOne, SetBelow, Sound;
    if i <= n {
      OneSound(s);
      var r := UnpackOne(s);
      if r.Ok? && |r.value.stack| >= 2 && 0 <= i < MAX_SIZE {
        TopSound(r.value, |r.value.stack| - 1);
        SetSound(r.value, 1, Int(i), r.value.stack[|r.value.stack| - 1]);
        var q := SetBelow(r.value, 1, Int(i), r.value.stack[|r.value.stack| - 1]);
        if q.Ok? { ArraySound(q.value, i + 1, n); }
      }
    }
  }

  lemma EndSound(s: State)
    requires Sound(s) && s.stack != []
    ensures Sound(s.(stack := s.stack[..|s.stack| - 1]))
  {
  }

  lemma {:induction false} HashSound(s: State)
    requires Fresh(s) && Sound(s)
    ensures SoundOr(UnpackHash(s))
    decreases |s.rest|, 1
  {
    hide UnpackOne, UnpackHash, SetBelow, Sound;
    HashUnfold(s);
    OneSound(s);
    var r := UnpackOne(s);
    if r.Ok? {
      EndSound(r.value);
      if r.value.stack[|r.value.stack| - 1] != Nil {
        PairSound(s, r.value);
      }
    }
  }

  lemma {:induction false} PairSound(s: State, s1: State)
    requires Fresh(s) && Fresh(s1) && Sound(s1) && UnpackOne(s) == Ok(s1) && |s1.rest| < |s.rest|
    requires s1.stack != [] && s1.stack[|s1.stack| - 1] != Nil
    ensures SoundOr(UnpackHash(s))
    decreases |s.rest|, 0
  {
    hide UnpackOne, UnpackHash, SetBelow, Sound;
    HashUnfold(s);
    var down := s1.(depth := s1.depth + 1);
    DepthSound(s1, s1.depth + 1);
    OneSound(down);
    var q := UnpackOne(down);
    if q.Ok? && |q.value.stack| >= 3 {
      var s3 := q.value.(depth := q.value.depth - 1);
      DepthSound(q.value, q.value.depth - 1);
      TopSound(s3, |s3.stack| - 2);
      TopSound(s3, |s3.stack| - 1);
      SetSound(s3, 2, s3.stack[|s3.stack| - 2], s3.stack[|s3.stack| - 1]);
      var x := SetBelow(s3, 2, s3.stack[|s3.stack| - 2], s3.stack[|s3.stack| - 1]);
      if x.Ok? { HashSound(x.value); }
    }
  }

  lemma {:induction false} AllSound(s: State)
    requires Fresh(s) && Sound(s)
    ensures SoundOr(UnpackAll(s))
    decreases |s.rest|
  {
    hide UnpackOne, Sound;
    if s.rest != [] {
      OneSound(s);
      if UnpackOne(s).Ok? { AllSound(UnpackOne(s).value); }
    }
  }

  // Whatever bytes come as a message: if they are read at all, every table
  // returned, and every table in one, is a table the reader created.
  lemma MessageIsSound(b: bytes)
    ensures SoundOr(UnpackMessage(b))
  {
    hide UnpackAll, FromLE, Take;
    forall stream: bytes ensures SoundOr(UnpackAll(Start(stream))) {
      AllSound(Start(stream));
    }
  }

  // `payload` is a number record, of any width, that a C int takes for n.
  ghost predicate Names(payload: bytes, n: int) {
    payload != [] && payload[0] % 8 == TYPE_NUMBER && payload[0] / 8 != NUMBER_REAL &&
    exists i: int64 :: DenotesInt(payload[0] / 8, payload[1..], i) && n == Signed(i % 0x1_0000_0000, 0x1_0000_0000)
  }

  lemma NumberRead(payload: bytes, rest: bytes, n: int)
    ensures ExtendInteger(payload + rest) == Ok(Read(n, rest)) <==> Names(payload, n)
  {
    hide DecodeInt, DenotesInt;
    var b := payload + rest;
    if payload != [] {
      assert b[0] == payload[0] && b[1..] == payload[1..] + rest;
      forall i: int64 ensures DecodeInt(b[0] / 8, b[1..]) == Ok(Read(i, rest)) <==> DenotesInt(b[0] / 8, payload[1..], i) {
        IntReadsExactly(b[0] / 8, b[1..], i, payload[1..], rest);
      }
    }
  }

  // Whatever the bytes are, a reference by number is read if and only if they
  // name a table met with the marked tag; that table is what is read.
  lemma NumberedReference(s: State, payload: bytes, rest: bytes, n: nat)
    requires Fresh(s) && s.rest == payload + rest
    ensures UnpackRef(s, EXTEND_NUMBER) == Ok(Push(s.(rest := rest), Table(n))) <==> Names(payload, n) && n in s.marked
  {
    hide ExtendInteger, Names;
    NumberRead(payload, rest, n);
    var r := UnpackRef(s, EXTEND_NUMBER);
    if r == Ok(Push(s.(rest := rest), Table(n))) {
      assert r.value.stack[|s.stack|] == Table(ExtendInteger(s.rest).value.got);
    }
  }
}
