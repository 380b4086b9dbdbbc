// The unpacker as it runs: a cursor into the message, the Lua stack, and an
// array of open tables, all updated in place. It computes what SeriUnpack says.
module SeriReader {
  import opened SeriFormat
  import opened SeriPack
  import opened SeriUnpack

  // `t` is what reading a scalar of this type should leave behind.
  ghost predicate ReadsScalar(s: State, t: int, cookie: int, ok: bool, next: State)
    requires 0 <= t < TYPE_TABLE && 0 <= cookie < MAX_COOKIE
  {
    var p := DecodeScalar(t, cookie, s.rest);
    ok == p.Ok? && (ok ==> next == Push(s.(rest := p.value.rest), p.value.got))
  }

  lemma LongString(b: bytes, cookie: int)
    requires 0 <= cookie < MAX_COOKIE
    ensures DecodeScalar(TYPE_LONG_STRING, cookie, b) ==
      if (cookie != 2 && cookie != 4) || Take(b, cookie).Invalid? then Invalid else
      var p := Take(b, cookie).value;
      var q := Take(p.rest, FromLE(p.got));
      if q.Invalid? then Invalid else Ok(Read(Str(q.value.got), q.value.rest))
  {
    hide FromLE, Take;
  }

  // struct read_block with the part of the Lua state it works on. Every method
  // returns false where the source raises a Lua error.
  class Reader {
    const buffer: bytes
    var ptr: nat
    var len: nat
    var depth: nat
    const ancestor: array<nat>
    var stack: seq<Value>
    var heap: seq<Content>
    var marked: set<nat>

    ghost predicate Valid()
      reads this
    {
      ptr + len <= |buffer| && ancestor.Length == MAX_DEPTH
    }

    ghost function View(): (s: State)
      reads this, ancestor
      requires Valid()
      ensures Fresh(s) && |s.rest| == len
    {
      State(buffer[ptr..ptr + len], stack, heap, marked, ancestor[..], depth)
    }

    // rball_init
    constructor (buffer: bytes)
      ensures Valid() && fresh(ancestor) && this.buffer == buffer && View() == Start(buffer)
    {
      this.buffer := buffer;
      ptr, len, depth := 0, |buffer|, 0;
      ancestor := new nat[MAX_DEPTH](_ => 0);
      stack, heap, marked := [], [], {};
    }

    // rb_read
    method Read(sz: nat) returns (ok: bool, got: bytes)
      requires Valid()
      modifies this`ptr, this`len
      ensures Valid() && ok == (sz <= old(len)) && len == old(len) - (if ok then sz else 0)
      ensures ok ==> Take(old(View()).rest, sz) == Ok(SeriFormat.Read(got, View().rest)) && View() == old(View()).(rest := View().rest)
      ensures !ok ==> View() == old(View())
    {
      if len < sz { return false, []; }
      got := buffer[ptr..ptr + sz];
      ptr, len := ptr + sz, len - sz;
      ok := true;
      assert old(View()).rest[..sz] == got && old(View()).rest[sz..] == View().rest;
    }

    // get_integer
    method GetInteger(cookie: int) returns (ok: bool, v: int64)
      requires Valid()
      modifies this`ptr, this`len
      ensures Valid() && ok == DecodeInt(cookie, old(View()).rest).Ok? && len <= old(len)
      ensures ok ==> DecodeInt(cookie, old(View()).rest) == Ok(SeriFormat.Read(v, View().rest))
      ensures View() == old(View()).(rest := View().rest)
    {
      Powers();
      var got: bytes;
      v := 0;
      if cookie == NUMBER_ZERO {
        return true, 0;
      } else if cookie == NUMBER_BYTE {
        ok, got := Read(1);
        FromLEBound(got);
        if ok { v := FromLE(got); }
      } else if cookie == NUMBER_WORD {
        ok, got := Read(2);
        FromLEBound(got);
        if ok { v := FromLE(got); }
      } else if cookie == NUMBER_DWORD {
        ok, got := Read(4);
        FromLEBound(got);
        if ok { v := Signed(FromLE(got), 0x1_0000_0000); }
      } else if cookie == NUMBER_QWORD {
        ok, got := Read(8);
        FromLEBound(got);
        if ok { v := Signed(FromLE(got), 0x1_0000_0000_0000_0000); }
      } else {
        ok := false;
      }
    }

    // get_extend_integer
    method GetExtendInteger() returns (ok: bool, v: int)
      requires Valid()
      modifies this`ptr, this`len
      ensures Valid() && ok == ExtendInteger(old(View()).rest).Ok? && len <= old(len)
      ensures ok ==> ExtendInteger(old(View()).rest) == Ok(SeriFormat.Read(v, View().rest)) && len < old(len)
      ensures View() == old(View()).(rest := View().rest)
    {
      hide DecodeInt;
      ok, v := false, 0;
      var got;
      ok, got := Read(1);
      if !ok { return; }
      assert got[0] == old(View()).rest[0];
      if got[0] % 8 != TYPE_NUMBER || got[0] / 8 == NUMBER_REAL { return false, 0; }
      var n;
      ok, n := GetInteger(got[0] / 8);
      v := Signed(n % 0x1_0000_0000, 0x1_0000_0000);
    }

    // unpack_ref
    method ReadRef(ref: int) returns (ok: bool)
      requires Valid() && 0 <= ref < MAX_COOKIE
      modifies this`ptr, this`len, this`stack
      ensures Valid() && ok == UnpackRef(old(View()), ref).Ok? && len <= old(len)
      ensures ok ==> View() == UnpackRef(old(View()), ref).value
    {
      hide ExtendInteger;
      if ref == EXTEND_NUMBER {
        var id;
        ok, id := GetExtendInteger();
        if !ok || id !in marked { return false; }
        stack := stack + [Table(id)];
      } else if ref >= depth {
        return false;
      } else {
        stack := stack + [StackAt(stack, ancestor[ref])];
        ok := true;
      }
    }

    // lua_rawset and lua_rawseti: the table lies `below` values down, the key
    // and the value go from the top of the stack.
    method Set(below: nat, key: Value, val: Value) returns (ok: bool)
      requires Valid() && below < |stack|
      modifies this`stack, this`heap
      ensures Valid() && ok == SetBelow(old(View()), below, key, val).Ok?
      ensures ok ==> View() == SetBelow(old(View()), below, key, val).value
    {
      var slot := |stack| - 1 - below;
      var t := stack[slot];
      ok := t.Table? && 0 < t.ref <= |heap|;
      if ok {
        stack := stack[..slot + 1];
        heap := heap[t.ref - 1 := Assign(heap[t.ref - 1], key, val)];
      }
    }

    // unpack_one
    method ReadOne() returns (ok: bool)
      requires Valid()
      modifies this, ancestor
      ensures Valid() && len <= old(len)
      ensures ok == UnpackOne(old(View())).Ok?
      ensures ok ==> View() == UnpackOne(old(View())).value && len < old(len)
      decreases len, 0
    {
      hide PushValue;
      var got;
      ok, got := Read(1);
      if !ok { return; }
      assert got[0] == old(View()).rest[0] && old(View()).rest[1..] == View().rest;
      ok := ReadValue(got[0] % 8, got[0] / 8);
    }

    // push_value
    method ReadValue(t: int, cookie: int) returns (ok: bool)
      requires Valid() && 0 <= t < 8 && 0 <= cookie < MAX_COOKIE
      modifies this, ancestor
      ensures Valid() && len <= old(len)
      ensures ok == PushValue(old(View()), t, cookie).Ok?
      ensures ok ==> View() == PushValue(old(View()), t, cookie).value
      decreases len, 4
    {
      hide UnpackRef, UnpackTable, DecodeScalar;
      if t < TYPE_TABLE {
        ok := ReadScalar(t, cookie);
      } else if t == TYPE_REF {
        ok := ReadRef(cookie);
      } else {
        ok := ReadTable(cookie, t);
      }
    }

    // The scalar cases of push_value.
    method ReadScalar(t: int, cookie: int) returns (ok: bool)
      requires Valid() && 0 <= t < TYPE_TABLE && 0 <= cookie < MAX_COOKIE
      modifies this`ptr, this`len, this`stack
      ensures Valid() && len <= old(len)
      ensures ReadsScalar(old(View()), t, cookie, ok, View())
    {
      hide ReadsScalar;
      if t == TYPE_BOOLEAN {
        ok := ReadBoolean(cookie);
      } else if t == TYPE_NUMBER {
        ok := ReadNumber(cookie);
      } else if t == TYPE_USERDATA {
        ok := ReadUserdata(cookie);
      } else if t == TYPE_SHORT_STRING {
        ok := ReadShortString(cookie);
      } else {
        ok := ReadLongString(cookie);
      }
    }

    method ReadBoolean(cookie: int) returns (ok: bool)
      requires Valid() && 0 <= cookie < MAX_COOKIE
      modifies this`stack
      ensures Valid() && ReadsScalar(old(View()), TYPE_BOOLEAN, cookie, ok, View())
    {
      if cookie == BOOLEAN_NIL {
        stack := stack + [Nil];
      } else if cookie == BOOLEAN_FALSE {
        stack := stack + [Bool(false)];
      } else if cookie == BOOLEAN_TRUE {
        stack := stack + [Bool(true)];
      } else {
        return false;
      }
      ok := true;
    }

    method ReadNumber(cookie: int) returns (ok: bool)
      requires Valid() && 0 <= cookie < MAX_COOKIE
      modifies this`ptr, this`len, this`stack
      ensures Valid() && len <= old(len) && ReadsScalar(old(View()), TYPE_NUMBER, cookie, ok, View())
    {
      hide DecodeInt;
      if cookie == NUMBER_REAL {
        var got;
        ok, got := Read(8);
        if ok { stack := stack + [Real(got)]; }
      } else {
        var n;
        ok, n := GetInteger(cookie);
        if ok { stack := stack + [Int(n)]; }
      }
    }

    method ReadUserdata(cookie: int) returns (ok: bool)
      requires Valid() && 0 <= cookie < MAX_COOKIE
      modifies this`ptr, this`len, this`stack
      ensures Valid() && len <= old(len) && ReadsScalar(old(View()), TYPE_USERDATA, cookie, ok, View())
    {
      if cookie != USERDATA_POINTER && cookie != USERDATA_CFUNCTION { return false; }
      var got;
      ok, got := Read(8);
      if ok { stack := stack + [if cookie == USERDATA_POINTER then Pointer(got) else CFunc(got)]; }
    }

    method ReadShortString(cookie: int) returns (ok: bool)
      requires Valid() && 0 <= cookie < MAX_COOKIE
      modifies this`ptr, this`len, this`stack
      ensures Valid() && len <= old(len) && ReadsScalar(old(View()), TYPE_SHORT_STRING, cookie, ok, View())
    {
      var got;
      ok, got := Read(cookie);
      if ok { stack := stack + [Str(got)]; }
    }

    method ReadLongString(cookie: int) returns (ok: bool)
      requires Valid() && 0 <= cookie < MAX_COOKIE
      modifies this`ptr, this`len, this`stack
      ensures Valid() && len <= old(len) && ReadsScalar(old(View()), TYPE_LONG_STRING, cookie, ok, View())
    {
      hide FromLE, DecodeScalar, Take;
      LongString(View().rest, cookie);
      if cookie != 2 && cookie != 4 { return false; }
      var got;
      ok, got := Read(cookie);
      if !ok { return; }
      ok, got := Read(FromLE(got));
      if ok { stack := stack + [Str(got)]; }
    }

    // unpack_table
    method ReadTable(cookie: int, t: int) returns (ok: bool)
      requires Valid() && 0 <= cookie < MAX_COOKIE
      modifies this, ancestor
      ensures Valid() && len <= old(len)
      ensures ok == UnpackTable(old(View()), cookie, t).Ok?
      ensures ok ==> View() == UnpackTable(old(View()), cookie, t).value
      decreases len, 3
    {
      hide ExtendInteger, UnpackArray, UnpackHash;
      var n := cookie;
      ok := true;
      if cookie == EXTEND_NUMBER {
        ok, n := GetExtendInteger();
        if !ok { return; }
      }
      Open(t == TYPE_TABLE_MARK);
      ok := ReadArray(n);
      if !ok { return; }
      depth := depth - 1;
      ok := ReadHash();
    }

    // A new table on the stack, in the ref table if it is marked, and in the
    // ancestor slot of its depth.
    method Open(mark: bool)
      requires Valid()
      modifies this, ancestor
      ensures Valid() && len == old(len) && View() == OpenTable(old(View()), mark)
    {
      var id := |heap| + 1;
      if depth < MAX_DEPTH { ancestor[depth] := |stack|; }
      stack, heap := stack + [Table(id)], heap + [map[]];
      if mark { marked := marked + {id}; }
      depth := depth + 1;
    }

    // The loop over the array part.
    method ReadArray(n: int) returns (ok: bool)
      requires Valid()
      modifies this, ancestor
      ensures Valid() && len <= old(len)
      ensures ok == UnpackArray(old(View()), 1, n).Ok?
      ensures ok ==> View() == UnpackArray(old(View()), 1, n).value
      decreases len, 2
    {
      hide UnpackOne, SetBelow;
      var i := 1;
      while i <= n
        invariant Valid() && len <= old(len)
        invariant UnpackArray(View(), i, n) == UnpackArray(old(View()), 1, n) && i > 0
      {
        ok := ReadOne();
        if !ok || |stack| < 2 || i >= MAX_SIZE { return false; }
        ok := Set(1, Int(i), stack[|stack| - 1]);
        if !ok { return; }
        i := i + 1;
      }
      ok := true;
    }

    // The loop over the hash part.
    method ReadHash() returns (ok: bool)
      requires Valid()
      modifies this, ancestor
      ensures Valid() && len <= old(len)
      ensures ok == UnpackHash(old(View())).Ok?
      ensures ok ==> View() == UnpackHash(old(View())).value
      decreases len, 1
    {
      hide UnpackOne, SetBelow, UnpackHash, Fresh;
      ok := true;
      while true
        invariant Valid() && len <= old(len)
        invariant UnpackHash(View()) == UnpackHash(old(View()))
        decreases len
      {
        ghost var before := View();
        ok := ReadOne();
        if !ok {
          HashFails(before);
          return;
        }
        ghost var s1 := View();
        if stack[|stack| - 1] == Nil {
          HashEnds(before, s1);
          if |stack| < 2 { return false; }
          stack := stack[..|stack| - 1];
          return;
        }
        depth := depth + 1;
        ghost var down := View();
        ok := ReadOne();
        if !ok || |stack| < 3 {
          PairFails(before, s1, down);
          return false;
        }
        ghost var s2 := View();
        depth := depth - 1;
        PairGoes(before, s1, down, s2, View(), SetBelow(View(), 2, stack[|stack| - 2], stack[|stack| - 1]));
        ok := Set(2, stack[|stack| - 2], stack[|stack| - 1]);
        if !ok { return; }
      }
    }

    // seri_unpack: values until the message is used up
    method ReadAll() returns (ok: bool)
      requires Valid()
      modifies this, ancestor
      ensures Valid() && ok == UnpackAll(old(View())).Ok?
      ensures ok ==> View() == UnpackAll(old(View())).value
      decreases len, 5
    {
      hide UnpackOne;
      while len > 0
        invariant Valid() && UnpackAll(View()) == UnpackAll(old(View()))
        decreases len
      {
        ok := ReadOne();
        if !ok { return; }
      }
      ok := true;
    }
  }
}
