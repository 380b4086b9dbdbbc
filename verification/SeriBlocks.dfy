// The output buffer of src/lua-seri.c: a chain of 128-byte blocks that acts
// as one flat, growing byte string whose written bytes can be patched.
module SeriBlocks {
  import opened SeriFormat

  const BLOCK_SIZE := 128

  // Where a byte of the chain lives: what wb_address returns.
  datatype Address = Address(block: nat, offset: nat) {
    function Position(): nat {
      BLOCK_SIZE * block + offset
    }
  }

  lemma Joins(header: bytes, data: bytes, x: nat, n: nat)
    requires x + n <= |data|
    ensures header + data[..x] + data[x..x + n] == header + data[..x + n]
  {
  }

  // struct write_block without the packer's stack and references
  class BlockChain {
    var blocks: seq<array<byte>>
    var ptr: nat
    var len: nat
    ghost var data: bytes   // the bytes pushed so far, as patched
    ghost var Repr: set<object>

    // Every block but the last is full; `data` is their concatenation.
    ghost predicate Valid()
      reads this, Repr
    {
      && this in Repr && (forall i | 0 <= i < |blocks| :: blocks[i] in Repr)
      && 0 < |blocks| && ptr <= BLOCK_SIZE
      && (forall i | 0 <= i < |blocks| :: blocks[i].Length == BLOCK_SIZE)
      && (forall i, j | 0 <= i < j < |blocks| :: blocks[i] != blocks[j])
      && len == BLOCK_SIZE * (|blocks| - 1) + ptr
      && |data| == len
      && (forall i, k | 0 <= i < |blocks| && 0 <= k < BLOCK_SIZE && BLOCK_SIZE * i + k < len ::
            blocks[i][k] == data[BLOCK_SIZE * i + k])
    }

    // wb_init
    constructor ()
      ensures Valid() && fresh(Repr) && data == []
    {
      var first := new byte[BLOCK_SIZE](_ => 0);
      blocks := [first];
      ptr, len, data := 0, 0, [];
      Repr := {this, first};
    }

    // b->current = b->current->next = blk_alloc(); b->ptr = 0
    method NewBlock()
      requires Valid() && ptr == BLOCK_SIZE
      modifies this
      ensures Valid() && fresh(Repr - old(Repr)) && old(Repr) <= Repr
      ensures data == old(data) && ptr == 0 && len == old(len)
    {
      var block := new byte[BLOCK_SIZE](_ => 0);
      blocks, Repr := blocks + [block], Repr + {block};
      ptr := 0;
    }

    // memcpy into the current block, when it fits
    method Copy(chunk: bytes)
      requires Valid() && ptr + |chunk| <= BLOCK_SIZE
      modifies Repr
      ensures Valid() && Repr == old(Repr)
      ensures data == old(data) + chunk && ptr == old(ptr) + |chunk| && len == old(len) + |chunk|
    {
      var b := blocks[|blocks| - 1];
      var i := 0;
      while i < |chunk|
        invariant 0 <= i <= |chunk|
        invariant Valid() && blocks == old(blocks) && Repr == old(Repr) && b == blocks[|blocks| - 1]
        invariant data == old(data) + chunk[..i] && ptr == old(ptr) + i && len == old(len) + i
      {
        b[ptr] := chunk[i];
        data := data + [chunk[i]];
        ptr, len, i := ptr + 1, len + 1, i + 1;
      }
      assert chunk[..|chunk|] == chunk;
    }

    // wb_push: whatever the sizes, the bytes are appended.
    method Push(buf: bytes)
      requires Valid()
      modifies Repr
      ensures Valid() && fresh(Repr - old(Repr)) && old(Repr) <= Repr
      ensures data == old(data) + buf
    {
      var buffer := buf;
      if ptr == BLOCK_SIZE { NewBlock(); }
      while ptr > BLOCK_SIZE - |buffer|
        invariant Valid() && fresh(Repr - old(Repr)) && old(Repr) <= Repr
        invariant ptr < BLOCK_SIZE
        invariant data + buffer == old(data) + buf
        decreases |buffer|
      {
        var copy := BLOCK_SIZE - ptr;
        Copy(buffer[..copy]);
        assert buffer[..copy] + buffer[copy..] == buffer;
        buffer := buffer[copy..];
        NewBlock();
      }
      Copy(buffer);
    }

    // wb_address: where the next byte pushed will be written
    method NextAddress() returns (a: Address)
      requires Valid()
      modifies this
      ensures Valid() && fresh(Repr - old(Repr)) && old(Repr) <= Repr
      ensures data == old(data) && a.Position() == |data| && a.offset < BLOCK_SIZE
    {
      if ptr == BLOCK_SIZE { NewBlock(); }
      a := Address(|blocks| - 1, ptr);
    }

    // change_mark: a table's tag becomes TYPE_TABLE_MARK with the same cookie.
    // The caller owes the assertion of the source.
    method ChangeMark(a: Address)
      requires Valid() && a.offset < BLOCK_SIZE && a.Position() < |data|
      requires data[a.Position()] % 8 == TYPE_TABLE
      modifies Repr
      ensures Valid() && Repr == old(Repr)
      ensures data == old(data)[a.Position() := Combine(TYPE_TABLE_MARK, old(data[a.Position()]) / 8)]
    {
      var b := blocks[a.block];
      var tag := b[a.offset];
      b[a.offset] := Combine(TYPE_TABLE_MARK, tag / 8);
      data := data[a.Position() := b[a.offset]];
    }

    // seri: the flat message, a 4-byte length and then the bytes
    method Flatten() returns (buffer: array<byte>)
      requires Valid() && |data| < MAX_SIZE
      ensures fresh(buffer) && buffer[..] == LE(4, |data|) + data
    {
      var header := LE(4, len);
      buffer := new byte[len + 4](_ => 0);
      CopyHeader(buffer, header);
      var at, left, b := 4, len, 0;
      while left > 0
        invariant 4 <= at == buffer.Length - left && 0 <= left && at == 4 + (if left == 0 then len else BLOCK_SIZE * b)
        invariant left > 0 ==> b < |blocks|
        invariant buffer[..at] == header + data[..at - 4]
      {
        var n := if left >= BLOCK_SIZE then BLOCK_SIZE else left;
        CopyOut(buffer, at, b, n);
        Joins(header, data, at - 4, n);
        at, left, b := at + n, left - n, b + 1;
      }
      assert data[..len] == data && buffer[..buffer.Length] == buffer[..];
    }

    // The length goes first.
    static method CopyHeader(buffer: array<byte>, header: bytes)
      requires |header| == 4 <= buffer.Length
      modifies buffer
      ensures buffer[..4] == header
    {
      var i := 0;
      while i < 4
        invariant 0 <= i <= 4 && buffer[..i] == header[..i]
      {
        buffer[i] := header[i];
        i := i + 1;
      }
    }

    // memcpy out of block b
    method CopyOut(buffer: array<byte>, at: nat, b: nat, n: nat)
      requires Valid() && buffer !in Repr && b < |blocks| && n <= BLOCK_SIZE
      requires at + n <= buffer.Length && BLOCK_SIZE * b + n <= len
      modifies buffer
      ensures buffer[..at + n] == old(buffer[..at]) + data[BLOCK_SIZE * b..BLOCK_SIZE * b + n]
    {
      var i := 0;
      while i < n
        invariant 0 <= i <= n
        invariant buffer[..at + i] == old(buffer[..at]) + data[BLOCK_SIZE * b..BLOCK_SIZE * b + i]
      {
        buffer[at + i] := blocks[b][i];
        i := i + 1;
      }
    }
  }
}
