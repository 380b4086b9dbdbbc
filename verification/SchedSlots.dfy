// Two structures of the scheduler as they lie in memory: the ring of services
// bound to a worker (src/worker.h) and the service pool (src/service.c).
module SchedSlots {
  import opened Division
  import M = SchedModel

  function Cell(p: nat): (c: nat)
    ensures c < M.BINDING_SERVICE_QUEUE
  {
    p % M.BINDING_SERVICE_QUEUE
  }

  // struct binding_service
  class BindingQueue {
    const q: array<nat>
    var head: nat
    var tail: nat

    ghost predicate Valid()
      reads this
    {
      q.Length == M.BINDING_SERVICE_QUEUE && head <= tail <= head + M.BINDING_SERVICE_QUEUE
    }

    // The services waiting, oldest first.
    ghost function Waiting(): seq<nat>
      reads this, q
      requires Valid()
    {
      seq(tail - head, i requires 0 <= i < tail - head reads this, q requires q.Length == M.BINDING_SERVICE_QUEUE =>
        q[Cell(head + i)])
    }

    constructor ()
      ensures Valid() && fresh(q) && Waiting() == []
    {
      q := new nat[M.BINDING_SERVICE_QUEUE](_ => 0);
      head, tail := 0, 0;
    }

    // worker_binding_job: true when the queue is full
    method Push(id: nat) returns (full: bool)
      requires Valid()
      modifies this`tail, q
      ensures Valid() && full == (|old(Waiting())| == M.BINDING_SERVICE_QUEUE)
      ensures Waiting() == if full then old(Waiting()) else old(Waiting()) + [id]
    {
      if tail - head >= M.BINDING_SERVICE_QUEUE { return true; }
      OtherCells(head, tail);
      q[Cell(tail)] := id;
      tail := tail + 1;
      full := false;
      assert Waiting() == old(Waiting()) + [id];
    }

    // The head, in worker_assign_job and count_freeslot; an empty queue starts
    // over at index 0.
    method Pop() returns (id: nat)
      requires Valid() && head != tail
      modifies this`head, this`tail
      ensures Valid() && old(Waiting()) == [id] + Waiting()
    {
      id := q[Cell(head)];
      head := head + 1;
      if head == tail { head, tail := 0, 0; }
      assert old(Waiting()) == [id] + Waiting();
    }
  }

  // The cell written is not one of those waiting.
  lemma OtherCells(head: nat, tail: nat)
    requires tail - head < M.BINDING_SERVICE_QUEUE && head <= tail
    ensures forall p | head <= p < tail :: Cell(p) != Cell(tail)
  {
  }

  const ID_RANGE := 0x1_0000_0000

  // A service id: an unsigned int; 0 is none.
  type uint = x: int | 0 <= x < 0x1_0000_0000

  // What service_new looks at for its n-th try.
  function Try(id: uint, n: nat): uint {
    (id + n) % ID_RANGE
  }

  // Whether the caller wished for an id; if not, how far the counter had come,
  // never mind that it wraps.
  datatype Choice = Wished | Counted(n: nat)

  // What has been done to a pool.
  datatype Change = Created(id: uint, choice: Choice) | Deleted(id: uint)

  // Created, and not deleted since.
  predicate Alive(log: seq<Change>, x: uint) {
    log != [] &&
    match log[|log| - 1]
    case Created(id, _) => id == x || Alive(log[..|log| - 1], x)
    case Deleted(id) => id != x && Alive(log[..|log| - 1], x)
  }

  lemma AliveNext(log: seq<Change>, c: Change, x: uint)
    ensures Alive(log + [c], x) <==> if c.id == x then c.Created? else Alive(log, x)
  {
    assert (log + [c])[..|log|] == log;
  }

  // A creation for which the counter was asked.
  predicate IsCounted(c: Change) {
    c.Created? && c.choice.Counted?
  }

  // The counter gives its value for an id, and only ever moves on.
  predicate Turns(log: seq<Change>, turned: nat) {
    && (forall i | 0 <= i < |log| && IsCounted(log[i]) :: log[i].choice.n < turned && log[i].id == log[i].choice.n % ID_RANGE)
    && (forall i, j | 0 <= i < j < |log| && IsCounted(log[i]) && IsCounted(log[j]) :: log[i].choice.n < log[j].choice.n)
  }

  lemma TurnsOn(log: seq<Change>, turned: nat, c: Change, next: nat)
    requires Turns(log, turned) && turned <= next
    requires IsCounted(c) ==> turned <= c.choice.n < next && c.id == c.choice.n % ID_RANGE
    ensures Turns(log + [c], next)
  {
    var more := log + [c];
    forall i, j | 0 <= i < j < |more| && IsCounted(more[i]) && IsCounted(more[j]) ensures more[i].choice.n < more[j].choice.n {
      if j < |log| { assert log[i].choice.n < log[j].choice.n; }
    }
  }

  // An id that the counter has given out comes again only when the counter has
  // gone round all its 2^32 values.
  lemma NoEarlyRepeat(log: seq<Change>, turned: nat, i: nat, j: nat)
    requires Turns(log, turned) && i < j < |log| && IsCounted(log[i]) && IsCounted(log[j]) && log[i].id == log[j].id
    ensures log[i].choice.n + ID_RANGE <= log[j].choice.n < turned
  {
    var a, b := log[i].choice.n, log[j].choice.n;
    if b < a + ID_RANGE { SameRemainder(a, b, ID_RANGE); }
  }

  // struct service_pool. A slot holds the id of its service, or 0.
  class ServicePool {
    const s: array<uint>
    var id: uint
    ghost var log: seq<Change>
    ghost var turned: nat   // the counter, never mind that it wraps

    ghost predicate Valid()
      reads this, s
    {
      && 0 < s.Length < ID_RANGE && ID_RANGE % s.Length == 0
      && (forall k | 0 <= k < s.Length && s[k] != 0 :: s[k] % s.Length == k)
      && id == turned % ID_RANGE && Turns(log, turned)
      && forall x: uint | x != 0 :: Live(x) <==> Alive(log, x)
    }

    // service_slot: id & mask, for a size that is a power of two
    function Slot(id: uint): (k: nat)
      requires s.Length > 0
      ensures k < s.Length
    {
      id % s.Length
    }

    predicate Live(id: uint)
      reads s
      requires s.Length > 0
    {
      id != 0 && s[Slot(id)] == id
    }

    constructor (size: nat)
      requires 0 < size < ID_RANGE && ID_RANGE % size == 0
      ensures Valid() && fresh(s) && s.Length == size && id == 0 && log == []
    {
      s := new uint[size](_ => 0);
      id, log, turned := 0, [], 0;
    }

    // get_service finds a service by its id from its creation to its deletion,
    // and at no other time.
    method Get(x: uint) returns (found: bool)
      requires Valid() && x != 0
      ensures found == Alive(log, x)
    {
      var S := s[Slot(x)];
      found := S != 0 && S == x;
    }

    // No try finds a slot: each id is 0 or its slot is taken.
    predicate NoneFree(n: nat)
      reads this, s
      requires s.Length > 0
    {
      forall i | 0 <= i < n :: Try(id, i) == 0 || s[Slot(Try(id, i))] != 0
    }

    // The n-th try is the first that can be given out.
    predicate FirstFree(n: nat)
      reads this, s
      requires s.Length > 0
    {
      NoneFree(n) && Try(id, n) != 0 && s[Slot(Try(id, n))] == 0
    }

    // The probing loop of service_new.
    method Probe() returns (found: bool, x: uint, ghost n: nat)
      requires Valid()
      ensures found == !NoneFree(s.Length)
      ensures found ==> n < s.Length && FirstFree(n) && x == Try(id, n)
    {
      x := id;
      var i := 0;
      while x == 0 || s[Slot(x)] != 0
        invariant 0 <= i < s.Length && x == Try(id, i)
        invariant NoneFree(i)
        decreases s.Length - i
      {
        x := (x + 1) % ID_RANGE;
        TryNext(id, i);
        i := i + 1;
        if i > s.Length - 1 { return false, 0, i; }
      }
      found, n := true, i;
    }

    // One of the tries is id 0.
    predicate MeetsZero(n: nat)
      reads this
    {
      exists i | 0 <= i < n :: Try(id, i) == 0
    }

    // service_new: 0 when there is no slot for the service. Without a wish it
    // is the first id from the counter on that is not 0 and whose slot is free,
    // and the counter moves on behind it.
    method New(sid: uint) returns (result: uint, ghost n: nat)
      requires Valid()
      modifies this`id, this`log, this`turned, s
      ensures Valid()
      ensures log == if result == 0 then old(log) else old(log) + [Created(result, if sid != 0 then Wished else Counted(old(turned) + n))]
      ensures result != 0 ==> !Alive(old(log), result)
      ensures sid != 0 ==> (result == 0 <==> old(s[Slot(sid)]) != 0) && (result != 0 ==> result == sid) && id == old(id)
      ensures sid == 0 ==> (result == 0 <==> old(NoneFree(s.Length)))
      ensures sid == 0 && result != 0 ==>
        n < s.Length && old(FirstFree(n)) && result == Try(old(id), n) && id == (result + 1) % ID_RANGE && turned == old(turned) + n + 1
      ensures result == 0 ==> s[..] == old(s[..]) && id == old(id)
      ensures result != 0 ==> old(s[Slot(result)]) == 0 && s[..] == old(s[..])[Slot(result) := result]
    {
      hide NoneFree, Turns;
      result, n := 0, 0;
      var x := sid;
      if sid != 0 {
        if s[Slot(x)] != 0 { return; }
        TurnsOn(log, turned, Created(x, Wished), turned);
      } else {
        var found;
        found, x, n := Probe();
        if !found { return; }
        CounterMoves(turned, n);
        TurnsOn(log, turned, Created(x, Counted(turned + n)), turned + n + 1);
        id := (x + 1) % ID_RANGE;
      }
      ghost var change := Created(x, if sid != 0 then Wished else Counted(turned + n));
      forall y: uint ensures Alive(log + [change], y) <==> if x == y then true else Alive(log, y) {
        AliveNext(log, change, y);
      }
      s[Slot(x)] := x;
      log, turned := log + [change], if sid != 0 then turned else turned + n + 1;
      result := x;
    }

    // service_delete
    method Delete(x: uint)
      requires Valid() && x != 0
      modifies this`log, s
      ensures Valid() && log == old(log) + [Deleted(x)]
      ensures s[..] == if old(Live(x)) then old(s[..])[Slot(x) := 0] else old(s[..])
    {
      TurnsOn(log, turned, Deleted(x), turned);
      forall y: uint ensures Alive(log + [Deleted(x)], y) <==> if x == y then false else Alive(log, y) {
        AliveNext(log, Deleted(x), y);
      }
      if s[Slot(x)] == x { s[Slot(x)] := 0; }
      log := log + [Deleted(x)];
    }
  }

  lemma TryNext(id: uint, n: nat)
    ensures Try(id, n + 1) == (Try(id, n) + 1) % ID_RANGE
  {
  }

  // The counter and its try, with and without the wrapping.
  lemma CounterMoves(turned: nat, n: nat)
    ensures Try(turned % ID_RANGE, n) == (turned + n) % ID_RANGE
    ensures (Try(turned % ID_RANGE, n) + 1) % ID_RANGE == (turned + n + 1) % ID_RANGE
  {
    TryNext(turned % ID_RANGE, n);
  }

  // Wrapping at 2^32 does not disturb the slot.
  lemma SlotOfWrapped(a: nat, size: nat)
    requires 0 < size && ID_RANGE % size == 0
    ensures (a % ID_RANGE) % size == a % size
  {
    var d := ID_RANGE / size;
    assert ID_RANGE == d * size == size * d;
    if d > 0 { ModOfMod(a, size, d); }
  }

  // The tries of service_new go through every slot.
  lemma TriesCover(id: uint, size: nat, k: nat) returns (i: nat)
    requires 0 < size < ID_RANGE && ID_RANGE % size == 0 && k < size
    ensures i < size && Try(id, i) % size == k
  {
    i := Offset(id, size, k);
    SlotOfWrapped(id + i, size);
  }

  lemma Offset(a: nat, size: nat, k: nat) returns (i: nat)
    requires k < size
    ensures i < size && (a + i) % size == k
  {
    var q, r := a / size, a % size;
    i := if k >= r then k - r else k - r + size;
    assert (q + 1) * size == q * size + size;
    Quotient(a + i, size, if k >= r then q else q + 1, k);
  }

  // service_new without an id fails if and only if every slot is taken, but
  // for the one whose turn would fall on id 0, which is never given out.
  lemma FailsIffFull(p: ServicePool)
    requires p.Valid()
    ensures p.NoneFree(p.s.Length) <==> forall k | 0 <= k < p.s.Length :: p.s[k] != 0 || (k == 0 && p.MeetsZero(p.s.Length))
  {
    hide Try;
    var size := p.s.Length;
    if p.NoneFree(size) {
      forall k | 0 <= k < size ensures p.s[k] != 0 || (k == 0 && p.MeetsZero(size)) {
        var i := TriesCover(p.id, size, k);
      }
    } else {
      var i :| 0 <= i < size && Try(p.id, i) != 0 && p.s[p.Slot(Try(p.id, i))] == 0;
      if p.MeetsZero(size) { NotZero(p, i); }
    }
  }

  // No two tries look at the same slot.
  lemma TriesDiffer(id: uint, size: nat, i: nat, j: nat)
    requires 0 < size < ID_RANGE && ID_RANGE % size == 0 && i < j < size
    ensures Try(id, i) % size != Try(id, j) % size
  {
    SlotOfWrapped(id + i, size);
    SlotOfWrapped(id + j, size);
    if (id + i) % size == (id + j) % size { SameRemainder(id + i, id + j, size); }
  }

  lemma SameRemainder(a: nat, b: nat, n: nat)
    requires n > 0 && a <= b < a + n && a % n == b % n
    ensures a == b
  {
    var x, y := a / n, b / n;
    assert a == x * n + a % n && b == y * n + a % n;
    assert y * n < (x + 1) * n;
    MulCancels(y, x + 1, n);
    if y < x { MulOrder(y + 1, x, n); }
  }

  // When one try is id 0, the others do not look at slot 0.
  lemma NotZero(p: ServicePool, i: nat)
    requires p.Valid() && i < p.s.Length && Try(p.id, i) != 0 && p.MeetsZero(p.s.Length)
    ensures p.Slot(Try(p.id, i)) != 0
  {
    hide Try;
    var j :| 0 <= j < p.s.Length && Try(p.id, j) == 0;
    if i < j { TriesDiffer(p.id, p.s.Length, i, j); } else { TriesDiffer(p.id, p.s.Length, j, i); }
  }
}
