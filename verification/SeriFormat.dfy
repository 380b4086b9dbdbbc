// Bytes of the serialized form: scalars and integers (src/lua-seri.c).
module SeriFormat {

  type byte = x: int | 0 <= x < 0x100
  type bytes = seq<byte>
  // An opaque 8-byte value: a double, a pointer or a C function.
  type word = w: bytes | |w| == 8 witness [0, 0, 0, 0, 0, 0, 0, 0]
  type int64 = x: int | -0x8000_0000_0000_0000 <= x < 0x8000_0000_0000_0000
  // What fits the C int used for sizes, counts and ids.
  type size = x: int | 0 <= x < 0x8000_0000

  const MAX_SIZE := 0x8000_0000

  const TYPE_BOOLEAN := 0
  const TYPE_NUMBER := 1
  const TYPE_USERDATA := 2
  const TYPE_SHORT_STRING := 3
  const TYPE_LONG_STRING := 4
  const TYPE_TABLE := 5
  const TYPE_TABLE_MARK := 6
  const TYPE_REF := 7

  const BOOLEAN_NIL := 0
  const BOOLEAN_FALSE := 1
  const BOOLEAN_TRUE := 2
  const NUMBER_ZERO := 0
  const NUMBER_BYTE := 1
  const NUMBER_WORD := 2
  const NUMBER_DWORD := 4
  const NUMBER_QWORD := 6
  const NUMBER_REAL := 8
  const USERDATA_POINTER := 0
  const USERDATA_CFUNCTION := 1

  const MAX_COOKIE := 32
  const EXTEND_NUMBER := 31

  // A Lua value. `Other` is what pack refuses: a Lua closure, a C function
  // with upvalues, a full userdata or a thread.
  datatype Value =
    | Nil
    | Bool(b: bool)
    | Int(i: int64)
    | Real(bits: word)
    | Pointer(bits: word)
    | CFunc(bits: word)
    | Str(s: bytes)
    | Table(ref: nat)
    | Other

  predicate IsScalar(v: Value) {
    !v.Table? && !v.Other?
  }

  function Combine(t: int, v: int): byte
    requires 0 <= t < 8 && 0 <= v < MAX_COOKIE
  {
    t + 8 * v
  }

  // Low byte first.
  function LE(n: nat, v: nat): (r: bytes)
    ensures |r| == n
  {
    if n == 0 then [] else [v % 0x100] + LE(n - 1, v / 0x100)
  }

  function FromLE(b: bytes): nat {
    if b == [] then 0 else b[0] + 0x100 * FromLE(b[1..])
  }

  function Pow256(n: nat): nat {
    if n == 0 then 1 else 0x100 * Pow256(n - 1)
  }

  lemma {:induction false} LERoundTrip(n: nat, v: nat)
    requires v < Pow256(n)
    ensures FromLE(LE(n, v)) == v
  {
    if n > 0 {
      LERoundTrip(n - 1, v / 0x100);
      assert LE(n, v)[1..] == LE(n - 1, v / 0x100);
    }
  }

  lemma Powers()
    ensures Pow256(1) == 0x100 && Pow256(2) == 0x1_0000 && Pow256(4) == 0x1_0000_0000
    ensures Pow256(8) == 0x1_0000_0000_0000_0000
  {
    assert Pow256(4) == 0x1_0000_0000;
    assert Pow256(6) == 0x1_0000_0000_0000;
  }

  // Two's complement.
  function Unsigned(v: int, modulus: nat): nat
    requires modulus > 0
  {
    v % modulus
  }

  function Signed(u: nat, modulus: nat): int {
    if u < modulus / 2 then u else u - modulus
  }

  predicate FitsInt32(v: int) {
    -0x8000_0000 <= v < 0x8000_0000
  }

  // wb_integer
  function EncodeInt(v: int): (r: bytes)
    ensures |r| > 0
  {
    if v == 0 then [Combine(TYPE_NUMBER, NUMBER_ZERO)]
    else if !FitsInt32(v) then [Combine(TYPE_NUMBER, NUMBER_QWORD)] + LE(8, Unsigned(v, 0x1_0000_0000_0000_0000))
    else if v < 0 then [Combine(TYPE_NUMBER, NUMBER_DWORD)] + LE(4, Unsigned(v, 0x1_0000_0000))
    else if v < 0x100 then [Combine(TYPE_NUMBER, NUMBER_BYTE)] + LE(1, v)
    else if v < 0x1_0000 then [Combine(TYPE_NUMBER, NUMBER_WORD)] + LE(2, v)
    else [Combine(TYPE_NUMBER, NUMBER_DWORD)] + LE(4, v)
  }

  datatype Result<T> = Ok(value: T) | Invalid {
    predicate IsFailure() { Invalid? }
    function PropagateFailure<U>(): Result<U>
      requires Invalid?
    {
      Invalid
    }
    function Extract(): T
      requires Ok?
    {
      value
    }
  }

  datatype Read<T> = Read(got: T, rest: bytes)

  // rb_read: nothing is consumed when too little is left.
  function Take(b: bytes, n: nat): (r: Result<Read<bytes>>)
    ensures r.Ok? <==> n <= |b|
    ensures r.Ok? ==> |r.value.got| == n && r.value.got + r.value.rest == b && |r.value.rest| == |b| - n
  {
    if |b| < n then Invalid else Ok(Read(b[..n], b[n..]))
  }

  // get_integer; a dword is read back as a signed 32-bit value
  function DecodeInt(cookie: int, b: bytes): (r: Result<Read<int64>>)
    ensures r.Ok? ==> |r.value.rest| <= |b|
  {
    Powers();
    if cookie == NUMBER_ZERO then Ok(Read(0, b))
    else if cookie == NUMBER_BYTE then
      var p :- Take(b, 1); FromLEBound(p.got); Ok(Read(FromLE(p.got), p.rest))
    else if cookie == NUMBER_WORD then
      var p :- Take(b, 2); FromLEBound(p.got); Ok(Read(FromLE(p.got), p.rest))
    else if cookie == NUMBER_DWORD then
      var p :- Take(b, 4); FromLEBound(p.got); Ok(Read(Signed(FromLE(p.got), 0x1_0000_0000), p.rest))
    else if cookie == NUMBER_QWORD then
      var p :- Take(b, 8); FromLEBound(p.got); Ok(Read(Signed(FromLE(p.got), 0x1_0000_0000_0000_0000), p.rest))
    else Invalid
  }

  lemma {:induction false} FromLEBound(b: bytes)
    ensures FromLE(b) < Pow256(|b|)
  {
    if b != [] { FromLEBound(b[1..]); }
  }

  // A number of n bytes is taken off the front.
  lemma TakeNumber(n: nat, u: nat, tail: bytes)
    requires u < Pow256(n)
    ensures Take(LE(n, u) + tail, n) == Ok(Read(LE(n, u), tail)) && FromLE(LE(n, u)) == u
  {
    LERoundTrip(n, u);
    var b := LE(n, u) + tail;
    assert b[..n] == LE(n, u) && b[n..] == tail;
  }

  lemma LongRoundTrip(v: int64, tail: bytes)
    requires !FitsInt32(v)
    ensures DecodeInt(NUMBER_QWORD, LE(8, Unsigned(v, 0x1_0000_0000_0000_0000)) + tail) == Ok(Read(v, tail))
  {
    hide LE, FromLE, Pow256;
    Powers();
    TakeNumber(8, Unsigned(v, 0x1_0000_0000_0000_0000), tail);
  }

  lemma DoubleRoundTrip(v: int64, tail: bytes)
    requires FitsInt32(v)
    ensures DecodeInt(NUMBER_DWORD, LE(4, Unsigned(v, 0x1_0000_0000)) + tail) == Ok(Read(v, tail))
  {
    hide LE, FromLE, Pow256;
    Powers();
    TakeNumber(4, Unsigned(v, 0x1_0000_0000), tail);
  }

  lemma ShortRoundTrip(v: int64, tail: bytes)
    requires 0 <= v < 0x1_0000
    ensures v < 0x100 ==> DecodeInt(NUMBER_BYTE, LE(1, v) + tail) == Ok(Read(v, tail))
    ensures DecodeInt(NUMBER_WORD, LE(2, v) + tail) == Ok(Read(v, tail))
  {
    hide LE, FromLE, Pow256;
    Powers();
    if v < 0x100 { TakeNumber(1, v, tail); }
    TakeNumber(2, v, tail);
  }

  // Every 64-bit integer comes back, whichever of the five widths was used.
  lemma IntRoundTrip(v: int64, tail: bytes)
    ensures var e := EncodeInt(v);
      && e[0] % 8 == TYPE_NUMBER && e[0] / 8 != NUMBER_REAL
      && DecodeInt(e[0] / 8, e[1..] + tail) == Ok(Read(v, tail))
  {
    hide LE, FromLE, Pow256;
    if v == 0 {
      assert EncodeInt(v)[1..] + tail == tail;
    } else if !FitsInt32(v) {
      LongRoundTrip(v, tail);
      assert EncodeInt(v)[1..] == LE(8, Unsigned(v, 0x1_0000_0000_0000_0000));
    } else if v < 0 || v >= 0x1_0000 {
      DoubleRoundTrip(v, tail);
      assert EncodeInt(v)[1..] == LE(4, Unsigned(v, 0x1_0000_0000));
    } else {
      ShortRoundTrip(v, tail);
      assert EncodeInt(v)[1..] == if v < 0x100 then LE(1, v) else LE(2, v);
    }
  }

  // The scalar cases of pack_one.
  function EncodeScalar(v: Value): (r: bytes)
    requires IsScalar(v)
    ensures |r| > 0
  {
    match v
    case Nil => [Combine(TYPE_BOOLEAN, BOOLEAN_NIL)]
    case Bool(b) => [Combine(TYPE_BOOLEAN, if b then BOOLEAN_TRUE else BOOLEAN_FALSE)]
    case Int(i) => EncodeInt(i)
    case Real(w) => [Combine(TYPE_NUMBER, NUMBER_REAL)] + w
    case Pointer(w) => [Combine(TYPE_USERDATA, USERDATA_POINTER)] + w
    case CFunc(w) => [Combine(TYPE_USERDATA, USERDATA_CFUNCTION)] + w
    case Str(s) => EncodeString(s)
  }

  // wb_string
  function EncodeString(s: bytes): (r: bytes)
    ensures |r| > |s|
  {
    if |s| < MAX_COOKIE then [Combine(TYPE_SHORT_STRING, |s|)] + s
    else if |s| < 0x1_0000 then [Combine(TYPE_LONG_STRING, 2)] + LE(2, |s|) + s
    else [Combine(TYPE_LONG_STRING, 4)] + LE(4, |s| % 0x1_0000_0000) + s
  }

  // The scalar cases of push_value.
  function DecodeScalar(t: int, cookie: int, b: bytes): (r: Result<Read<Value>>)
    requires 0 <= t < TYPE_TABLE && 0 <= cookie < MAX_COOKIE
    ensures r.Ok? ==> |r.value.rest| <= |b| && IsScalar(r.value.got)
  {
    if t == TYPE_BOOLEAN then
      if cookie == BOOLEAN_NIL then Ok(Read(Nil, b))
      else if cookie == BOOLEAN_FALSE then Ok(Read(Bool(false), b))
      else if cookie == BOOLEAN_TRUE then Ok(Read(Bool(true), b))
      else Invalid
    else if t == TYPE_NUMBER then
      if cookie == NUMBER_REAL then
        var p :- Take(b, 8); Ok(Read(Real(p.got), p.rest))
      else
        var p :- DecodeInt(cookie, b); Ok(Read(Int(p.got), p.rest))
    else if t == TYPE_USERDATA then
      if cookie == USERDATA_POINTER then
        var p :- Take(b, 8); Ok(Read(Pointer(p.got), p.rest))
      else if cookie == USERDATA_CFUNCTION then
        var p :- Take(b, 8); Ok(Read(CFunc(p.got), p.rest))
      else Invalid
    else if t == TYPE_SHORT_STRING then
      var p :- Take(b, cookie); Ok(Read(Str(p.got), p.rest))
    else
      if cookie == 2 || cookie == 4 then
        var p :- Take(b, cookie);
        var q :- Take(p.rest, FromLE(p.got));
        Ok(Read(Str(q.got), q.rest))
      else Invalid
  }

  predicate SmallScalar(v: Value) {
    IsScalar(v) && (v.Str? ==> |v.s| < MAX_SIZE)
  }

  lemma LongStringRoundTrip(s: bytes, n: nat, tail: bytes)
    requires |s| < MAX_SIZE && |s| < Pow256(n) && (n == 2 || n == 4)
    ensures DecodeScalar(TYPE_LONG_STRING, n, LE(n, |s|) + s + tail) == Ok(Read(Str(s), tail))
  {
    hide LE, FromLE, Pow256;
    TakeNumber(n, |s|, s + tail);
    assert LE(n, |s|) + s + tail == LE(n, |s|) + (s + tail);
    assert (s + tail)[..|s|] == s && (s + tail)[|s|..] == tail;
  }

  lemma ShortStringRoundTrip(s: bytes, tail: bytes)
    requires |s| < MAX_COOKIE
    ensures DecodeScalar(TYPE_SHORT_STRING, |s|, s + tail) == Ok(Read(Str(s), tail))
  {
    assert (s + tail)[..|s|] == s && (s + tail)[|s|..] == tail;
  }

  lemma StringRoundTrip(s: bytes, tail: bytes)
    requires |s| < MAX_SIZE
    ensures var e := EncodeString(s);
      && e[0] % 8 < TYPE_TABLE
      && DecodeScalar(e[0] % 8, e[0] / 8, e[1..] + tail) == Ok(Read(Str(s), tail))
  {
    hide LE, FromLE, Pow256, DecodeScalar;
    Powers();
    if |s| < MAX_COOKIE {
      ShortStringRoundTrip(s, tail);
      assert EncodeString(s)[1..] == s;
    } else {
      var n := if |s| < 0x1_0000 then 2 else 4;
      LongStringRoundTrip(s, n, tail);
      assert EncodeString(s)[1..] == LE(n, |s|) + s;
    }
  }

  lemma ScalarRoundTrip(v: Value, tail: bytes)
    requires SmallScalar(v)
    ensures var e := EncodeScalar(v);
      && e[0] % 8 < TYPE_TABLE
      && DecodeScalar(e[0] % 8, e[0] / 8, e[1..] + tail) == Ok(Read(v, tail))
  {
    assert [] + tail == tail;
    match v {
      case Int(i) => IntRoundTrip(i, tail);
      case Str(s) => StringRoundTrip(s, tail);
      case Real(w) => assert (w + tail)[..8] == w && (w + tail)[8..] == tail;
      case Pointer(w) => assert (w + tail)[..8] == w && (w + tail)[8..] == tail;
      case CFunc(w) => assert (w + tail)[..8] == w && (w + tail)[8..] == tail;
      case _ =>
    }
  }

  // --------------------------------------------------------------- the format

  // `payload` behind a tag of this type and cookie stands for v.
  predicate Denotes(t: int, cookie: int, payload: bytes, v: Value) {
    match v
    case Nil => t == TYPE_BOOLEAN && cookie == BOOLEAN_NIL && payload == []
    case Bool(b) => t == TYPE_BOOLEAN && cookie == (if b then BOOLEAN_TRUE else BOOLEAN_FALSE) && payload == []
    case Int(i) => t == TYPE_NUMBER && DenotesInt(cookie, payload, i)
    case Real(w) => t == TYPE_NUMBER && cookie == NUMBER_REAL && payload == w
    case Pointer(w) => t == TYPE_USERDATA && cookie == USERDATA_POINTER && payload == w
    case CFunc(w) => t == TYPE_USERDATA && cookie == USERDATA_CFUNCTION && payload == w
    case Str(s) =>
      (t == TYPE_SHORT_STRING && cookie == |s| && payload == s) ||
      (t == TYPE_LONG_STRING && (cookie == 2 || cookie == 4) && |payload| == cookie + |s| &&
        FromLE(payload[..cookie]) == |s| && payload[cookie..] == s)
    case _ => false
  }

  // The five widths: 0; one or two bytes without a sign; four or eight with.
  predicate DenotesInt(cookie: int, payload: bytes, i: int) {
    || (cookie == NUMBER_ZERO && payload == [] && i == 0)
    || (cookie == NUMBER_BYTE && |payload| == 1 && FromLE(payload) == i)
    || (cookie == NUMBER_WORD && |payload| == 2 && FromLE(payload) == i)
    || (cookie == NUMBER_DWORD && |payload| == 4 && FitsInt32(i) && FromLE(payload) == i % 0x1_0000_0000)
    || (cookie == NUMBER_QWORD && |payload| == 8 && FromLE(payload) == i % 0x1_0000_0000_0000_0000)
  }

  lemma IntReadsExactly(cookie: int, b: bytes, i: int64, payload: bytes, rest: bytes)
    requires b == payload + rest
    ensures DecodeInt(cookie, b) == Ok(Read(i, rest)) <==> DenotesInt(cookie, payload, i)
  {
    hide FromLE, Pow256;
    Powers();
    FromLEBound(payload);
    assert b[..|payload|] == payload && b[|payload|..] == rest;
    assert [] + rest == rest;
  }

  // n bytes in front of `rest` are taken just when they are the payload.
  lemma TakeExactly(b: bytes, n: nat, payload: bytes, rest: bytes, got: bytes)
    requires b == payload + rest
    ensures Take(b, n) == Ok(Read(got, rest)) <==> |payload| == n && got == payload
  {
    assert b[..|payload|] == payload && b[|payload|..] == rest;
  }

  lemma LongReadsExactly(cookie: int, b: bytes, s: bytes, payload: bytes, rest: bytes)
    requires (cookie == 2 || cookie == 4) && b == payload + rest
    ensures DecodeScalar(TYPE_LONG_STRING, cookie, b) == Ok(Read(Str(s), rest)) <==>
      |payload| == cookie + |s| && FromLE(payload[..cookie]) == |s| && payload[cookie..] == s
  {
    hide FromLE;
    if cookie <= |payload| {
      assert payload[cookie..] + rest == b[cookie..] && b[..cookie] == payload[..cookie];
      TakeExactly(b[cookie..], FromLE(b[..cookie]), payload[cookie..], rest, s);
    } else if cookie <= |b| {
      assert |b[cookie..]| < |rest|;
    }
  }

  // A scalar is read just when the bytes in front stand for it: whatever else
  // they say is refused.
  lemma ReadsExactly(t: int, cookie: int, b: bytes, v: Value, payload: bytes, rest: bytes)
    requires 0 <= t < TYPE_TABLE && 0 <= cookie < MAX_COOKIE && b == payload + rest
    ensures DecodeScalar(t, cookie, b) == Ok(Read(v, rest)) <==> Denotes(t, cookie, payload, v)
  {
    hide FromLE, DecodeInt, Take;
    assert [] + rest == rest;
    TakeExactly(b, 8, payload, rest, payload);
    TakeExactly(b, cookie, payload, rest, payload);
    match v {
      case Int(i) => IntReadsExactly(cookie, b, i, payload, rest);
      case Real(w) => TakeExactly(b, 8, payload, rest, w);
      case Pointer(w) => TakeExactly(b, 8, payload, rest, w);
      case CFunc(w) => TakeExactly(b, 8, payload, rest, w);
      case Str(s) =>
        TakeExactly(b, cookie, payload, rest, s);
        if cookie == 2 || cookie == 4 { LongReadsExactly(cookie, b, s, payload, rest); }
      case _ =>
    }
  }

  // Every integer is written in the narrowest width there is for it ...
  lemma IntNarrowest(i: int64, cookie: int, payload: bytes)
    requires DenotesInt(cookie, payload, i)
    ensures |EncodeInt(i)| <= 1 + |payload|
  {
    hide FromLE, LE, Pow256;
    Powers();
    FromLEBound(payload);
  }

  // ... and so is every scalar.
  lemma Narrowest(v: Value, t: int, cookie: int, payload: bytes)
    requires SmallScalar(v) && cookie < MAX_COOKIE && Denotes(t, cookie, payload, v)
    ensures |EncodeScalar(v)| <= 1 + |payload|
  {
    hide FromLE, LE, Pow256, EncodeInt;
    Powers();
    match v {
      case Int(i) => IntNarrowest(i, cookie, payload);
      case Str(s) => if t == TYPE_LONG_STRING { FromLEBound(payload[..cookie]); }
      case _ =>
    }
  }
}
