// The single-producer single-consumer ring (src/queue.c).
//
// One thread pushes, one pops; each of their atomic loads, cell accesses and
// stores is a step of its own, and any interleaving may happen.
module Ring {

  // queue_position: p & (size - 1), for a size that is a power of two
  function Position(p: nat, size: nat): (r: nat)
    requires size > 0
    ensures p < size ==> r == p
    ensures p == size ==> r == 0
    ensures r < size
  {
    p % size
  }

  // queue_position is only asked for positions up to `size`, where the mask
  // of a power of two does the same.
  lemma MaskWraps(p: bv32, size: bv32)
    requires size != 0 && size & (size - 1) == 0 && p <= size
    ensures p & (size - 1) == if p == size then 0 else p
  {
  }

  // struct queue, with everything ever pushed and popped
  datatype Queue = Queue(size: nat, head: nat, tail: nat, data: seq<int>, pushed: seq<int>, popped: seq<int>)

  // Where queue_push_int is: after loading tail, after passing the full test,
  // after writing the cell, after the "only one writer" assertion.
  datatype Pusher =
    | Outside
    | LoadedTail(v: int, at: nat)
    | Opened(v: int, at: nat)
    | Wrote(v: int, at: nat)
    | Asserted(v: int, at: nat)

  // Where queue_pop_int is.
  datatype Popper =
    | Outside
    | LoadedHead(at: nat)
    | Opened(at: nat)
    | Read(at: nat, v: int)
    | Asserted(at: nat, v: int)

  datatype Answer = None | PushOk | PushFull | PopEmpty | PopValue(v: int)

  datatype State = Broken | State(q: Queue, pusher: Pusher, popper: Popper, answer: Answer)

  datatype Action = Push(v: int) | Pop

  // One atomic step of the producer. `v` starts a push when none is under way.
  function PushStep(s: State, v: int): State
    requires s.State? && s.q.size > 0 && |s.q.data| == s.q.size
  {
    var q := s.q;
    match s.pusher
    case Outside => if v == 0 then Broken else s.(pusher := LoadedTail(v, q.tail), answer := None)
    case LoadedTail(v, at) =>
      if Position(at + 1, q.size) == q.head then s.(pusher := Pusher.Outside, answer := PushFull)
      else s.(pusher := Pusher.Opened(v, at), answer := None)
    case Opened(v, at) =>
      if at < q.size then s.(q := q.(data := q.data[at := v]), pusher := Wrote(v, at), answer := None) else Broken
    case Wrote(v, at) => if q.tail == at then s.(pusher := Pusher.Asserted(v, at), answer := None) else Broken
    case Asserted(v, at) =>
      s.(q := q.(tail := Position(at + 1, q.size), pushed := q.pushed + [v]), pusher := Pusher.Outside, answer := PushOk)
  }

  // One atomic step of the consumer.
  function PopStep(s: State): State
    requires s.State? && s.q.size > 0 && |s.q.data| == s.q.size
  {
    var q := s.q;
    match s.popper
    case Outside => s.(popper := LoadedHead(q.head), answer := None)
    case LoadedHead(at) =>
      if at == q.tail then s.(popper := Popper.Outside, answer := PopEmpty)
      else s.(popper := Popper.Opened(at), answer := None)
    case Opened(at) => if at < q.size then s.(popper := Read(at, q.data[at]), answer := None) else Broken
    case Read(at, v) => if q.head == at then s.(popper := Popper.Asserted(at, v), answer := None) else Broken
    case Asserted(at, v) =>
      s.(q := q.(head := Position(at + 1, q.size), popped := q.popped + [v]), popper := Popper.Outside, answer := PopValue(v))
  }

  // A failed assertion, a null value or a wild index breaks the run for good.
  function Step(s: State, a: Action): State {
    if s.Broken? || s.q.size == 0 || |s.q.data| != s.q.size then Broken
    else match a
      case Push(v) => PushStep(s, v)
      case Pop => PopStep(s)
  }

  function Run(s: State, actions: seq<Action>): State
    decreases |actions|
  {
    if actions == [] then s else Run(Step(s, actions[0]), actions[1..])
  }

  // queue_new
  function New(size: nat): State {
    State(Queue(size, 0, 0, seq(size, _ => 0), [], []), Pusher.Outside, Popper.Outside, None)
  }

  // queue_length, from what its two loads found
  function LengthOf(tail: nat, head: nat, size: nat): int {
    if tail < head then tail - head + size else tail - head
  }

  // ... both at one moment
  function Length(q: Queue): int {
    LengthOf(q.tail, q.head, q.size)
  }

  // The unread cells, oldest first.
  function Contents(q: Queue): (c: seq<int>)
    requires q.head < q.size == |q.data| && q.tail < q.size
    ensures |c| == Length(q) < q.size
  {
    if q.head <= q.tail then q.data[q.head..q.tail] else q.data[q.head..] + q.data[..q.tail]
  }

  ghost predicate GoodPusher(q: Queue, p: Pusher)
    requires q.head < q.size == |q.data| && q.tail < q.size
  {
    match p
    case Outside => true
    case LoadedTail(v, at) => v != 0 && at == q.tail
    case Opened(v, at) => v != 0 && at == q.tail && Length(q) < q.size - 1
    case Wrote(v, at) => v != 0 && at == q.tail && Length(q) < q.size - 1 && q.data[at] == v
    case Asserted(v, at) => v != 0 && at == q.tail && Length(q) < q.size - 1 && q.data[at] == v
  }

  ghost predicate GoodPopper(q: Queue, p: Popper)
    requires q.head < q.size == |q.data| && q.tail < q.size
  {
    match p
    case Outside => true
    case LoadedHead(at) => at == q.head
    case Opened(at) => at == q.head && Contents(q) != []
    case Read(at, v) => at == q.head && Contents(q) != [] && v == Contents(q)[0]
    case Asserted(at, v) => at == q.head && Contents(q) != [] && v == Contents(q)[0]
  }

  // What every reachable state satisfies.
  ghost predicate Inv(s: State) {
    && s.State?
    && s.q.head < s.q.size == |s.q.data| && s.q.tail < s.q.size
    && s.q.pushed == s.q.popped + Contents(s.q)
    && (forall v | v in s.q.pushed :: v != 0)
    && GoodPusher(s.q, s.pusher) && GoodPopper(s.q, s.popper)
  }

  // What one step may do and what its answer means at that moment.
  ghost predicate StepIsRight(s: State, a: Action, t: State)
    requires Inv(s) && Inv(t)
  {
    match t.answer
    case None => t.q.pushed == s.q.pushed && t.q.popped == s.q.popped && Contents(t.q) == Contents(s.q)
    case PushOk => s.pusher.Asserted? && Contents(t.q) == Contents(s.q) + [s.pusher.v] && t.q.popped == s.q.popped
    case PushFull => t.q == s.q && Length(s.q) == s.q.size - 1
    case PopEmpty => t.q == s.q && Contents(s.q) == []
    case PopValue(v) => v != 0 && Contents(s.q) == [v] + Contents(t.q) && t.q.pushed == s.q.pushed
  }

  lemma StartInv(size: nat)
    requires size > 0
    ensures Inv(New(size))
  {
  }

  // A write goes to a free cell, so it never disturbs an unread one.
  lemma WriteToFreeCell(q: Queue, v: int)
    requires q.head < q.size == |q.data| && q.tail < q.size
    ensures Contents(q.(data := q.data[q.tail := v])) == Contents(q)
  {
  }

  predicate InRange(q: Queue) {
    q.head < q.size == |q.data| && q.tail < q.size
  }

  lemma StoreTail(q: Queue, v: int)
    requires InRange(q) && Length(q) < q.size - 1 && q.data[q.tail] == v
    ensures var t := q.(tail := Position(q.tail + 1, q.size)); InRange(t) && Contents(t) == Contents(q) + [v]
  {
    hide Position;
  }

  lemma StoreHead(q: Queue)
    requires InRange(q) && Contents(q) != []
    ensures var t := q.(head := Position(q.head + 1, q.size)); InRange(t) && Contents(q) == [Contents(q)[0]] + Contents(t)
    ensures Contents(q)[0] == q.data[q.head]
  {
    hide Position;
  }

  // The full test compares the next tail with head.
  lemma FullTest(q: Queue)
    requires InRange(q)
    ensures Position(q.tail + 1, q.size) == q.head <==> Length(q) == q.size - 1
    ensures q.head == q.tail <==> Contents(q) == []
  {
    hide Position;
  }

  // A store of the producer leaves what the consumer has seen of the front.
  lemma PopperKept(q: Queue, t: Queue, p: Popper)
    requires InRange(q) && InRange(t) && q.head == t.head && GoodPopper(q, p) && Contents(q) <= Contents(t)
    ensures GoodPopper(t, p)
  {
    hide Contents;
  }

  // A store of the consumer only makes room.
  lemma PusherKept(q: Queue, t: Queue, p: Pusher)
    requires InRange(q) && InRange(t) && q.tail == t.tail && q.data == t.data && q.size == t.size
    requires GoodPusher(q, p) && Length(t) <= Length(q)
    ensures GoodPusher(t, p)
  {
  }

  lemma FinishPush(s: State, v: int)
    requires Inv(s) && s.pusher.Asserted? && v == s.pusher.v
    ensures var t := s.q.(tail := Position(s.pusher.at + 1, s.q.size), pushed := s.q.pushed + [v]);
      InRange(t) && Contents(t) == Contents(s.q) + [v] && t.pushed == s.q.popped + Contents(t) && GoodPopper(t, s.popper)
  {
    hide Contents, Position, Length;
    var q := s.q;
    LengthOfContents(q);
    StoreTail(q, v);
    var t := q.(tail := Position(q.tail + 1, q.size), pushed := q.pushed + [v]);
    SameContents(q.(tail := Position(q.tail + 1, q.size)), t);
    PopperKept(q, t, s.popper);
  }

  lemma LengthOfContents(q: Queue)
    requires InRange(q)
    ensures |Contents(q)| == Length(q)
  {
  }

  lemma SameContents(q: Queue, t: Queue)
    requires InRange(q) && t == q.(pushed := t.pushed, popped := t.popped)
    ensures Contents(t) == Contents(q)
  {
  }

  lemma FinishPop(s: State, v: int)
    requires Inv(s) && s.popper.Asserted? && v == s.popper.v
    ensures var t := s.q.(head := Position(s.popper.at + 1, s.q.size), popped := s.q.popped + [v]);
      && InRange(t) && Contents(s.q) == [v] + Contents(t) && t.pushed == t.popped + Contents(t)
      && v in s.q.pushed && GoodPusher(t, s.pusher)
  {
    hide Contents, Position, Length, GoodPusher;
    var q := s.q;
    StoreHead(q);
    var t := q.(head := Position(q.head + 1, q.size), popped := q.popped + [v]);
    SameContents(q.(head := Position(q.head + 1, q.size)), t);
    assert q.popped + ([v] + Contents(t)) == q.popped + [v] + Contents(t);
    assert q.pushed[|q.popped|] == v;
    LengthOfContents(q); LengthOfContents(t);
    PusherKept(q, t, s.pusher);
  }

  lemma PushKeepsInv(s: State, v: int)
    requires Inv(s) && (v != 0 || !s.pusher.Outside?)
    ensures Inv(PushStep(s, v)) && StepIsRight(s, Push(v), PushStep(s, v))
  {
    hide Contents, Position, Length;
    FullTest(s.q);
    LengthOfContents(s.q);
    match s.pusher {
      case Opened(v, at) =>
        var t := s.q.(data := s.q.data[at := v]);
        WriteToFreeCell(s.q, v);
        LengthOfContents(t);
        PopperKept(s.q, t, s.popper);
      case Asserted(v, at) =>
        FinishPush(s, v);
      case _ =>
    }
  }

  lemma PopKeepsInv(s: State)
    requires Inv(s)
    ensures Inv(PopStep(s)) && StepIsRight(s, Pop, PopStep(s))
  {
    hide Contents, Position, Length;
    FullTest(s.q);
    match s.popper {
      case Opened(at) =>
        StoreHead(s.q);
      case Asserted(at, v) =>
        FinishPop(s, v);
      case _ =>
    }
  }

  predicate NonZero(actions: seq<Action>) {
    forall a | a in actions && a.Push? :: a.v != 0
  }

  lemma StepKeepsInv(s: State, a: Action)
    requires Inv(s) && (a.Push? ==> a.v != 0)
    ensures Inv(Step(s, a)) && Step(s, a).q.size == s.q.size && StepIsRight(s, a, Step(s, a))
  {
    hide Contents, Position, Length, GoodPusher, GoodPopper, StepIsRight;
    match a {
      case Push(v) => PushKeepsInv(s, v);
      case Pop => PopKeepsInv(s);
    }
  }

  // Over any interleaving neither assertion fails and no index is wild.
  lemma {:induction false} RunKeepsInv(s: State, actions: seq<Action>)
    requires Inv(s) && NonZero(actions)
    ensures Inv(Run(s, actions)) && Run(s, actions).q.size == s.q.size
    decreases |actions|
  {
    hide Inv, StepIsRight, Step;
    if actions != [] {
      assert actions[0] in actions;
      StepKeepsInv(s, actions[0]);
      RunKeepsInv(Step(s, actions[0]), actions[1..]);
    }
  }

  // The ring is a bounded FIFO: what was popped is a prefix of what was
  // pushed, and never more than size - 1 values wait.
  lemma BoundedFifo(size: nat, actions: seq<Action>)
    requires size > 0 && NonZero(actions)
    ensures var s := Run(New(size), actions);
      s.State? && s.q.popped <= s.q.pushed && |s.q.pushed| - |s.q.popped| <= size - 1
  {
    StartInv(size);
    RunKeepsInv(New(size), actions);
  }

  // Every step of every run is right: a push appends, a pop takes the oldest,
  // "full" and "empty" are true when they are decided.
  lemma EveryStepIsRight(size: nat, actions: seq<Action>, a: Action)
    requires size > 0 && NonZero(actions + [a])
    ensures var s := Run(New(size), actions);
      Inv(s) && Inv(Step(s, a)) && StepIsRight(s, a, Step(s, a))
  {
    StartInv(size);
    assert forall x | x in actions :: x in actions + [a];
    RunKeepsInv(New(size), actions);
    assert a in actions + [a];
    StepKeepsInv(Run(New(size), actions), a);
  }

  // Each side moves its own index only.
  lemma {:induction false} OneIndex(s: State, actions: seq<Action>)
    requires Inv(s) && NonZero(actions)
    ensures var t := Run(s, actions);
      && t.State? && t.q.size == s.q.size
      && ((forall a | a in actions :: a.Pop?) ==> t.q.tail == s.q.tail)
      && ((forall a | a in actions :: a.Push?) ==> t.q.head == s.q.head)
    decreases |actions|
  {
    hide Inv, StepIsRight, Step;
    if actions == [] {
      StateOf(s);
    } else {
      var a := actions[0];
      assert a in actions && forall b | b in actions[1..] :: b in actions;
      StepKeepsInv(s, a);
      StepIndex(s, a);
      OneIndex(Step(s, a), actions[1..]);
    }
  }

  lemma StateOf(s: State)
    requires Inv(s)
    ensures s.State?
  {
  }

  lemma StepIndex(s: State, a: Action)
    requires Inv(s) && Inv(Step(s, a))
    ensures s.State? && Step(s, a).State?
    ensures if a.Pop? then Step(s, a).q.tail == s.q.tail else Step(s, a).q.head == s.q.head
  {
    hide Contents, Position;
  }

  lemma LengthNow(s: State)
    requires Inv(s)
    ensures s.State? && Length(s.q) == |s.q.pushed| - |s.q.popped|
  {
  }

  // queue_length loads tail and head at two moments of a run, `s` and `t`, in
  // whichever order. For the producer, that is with steps of the consumer alone
  // in between, the result is the number of values waiting when head was
  // loaded; for the consumer, when tail was.
  lemma LengthCounts(size: nat, before: seq<Action>, between: seq<Action>)
    requires size > 0 && NonZero(before) && NonZero(between)
    ensures var s := Run(New(size), before);
      var t := Run(s, between);
      && s.State? && t.State?
      && ((forall a | a in between :: a.Pop?) ==>
            LengthOf(s.q.tail, t.q.head, size) == |t.q.pushed| - |t.q.popped| &&
            LengthOf(t.q.tail, s.q.head, size) == |s.q.pushed| - |s.q.popped|)
      && ((forall a | a in between :: a.Push?) ==>
            LengthOf(t.q.tail, s.q.head, size) == |t.q.pushed| - |t.q.popped| &&
            LengthOf(s.q.tail, t.q.head, size) == |s.q.pushed| - |s.q.popped|)
  {
    hide Inv, Run;
    StartInv(size);
    RunKeepsInv(New(size), before);
    var s := Run(New(size), before);
    RunKeepsInv(s, between);
    OneIndex(s, between);
    LengthNow(s);
    LengthNow(Run(s, between));
  }

  // The queue as it lies in memory, for callers that own both ends.
  class IntQueue {
    const data: array<int>
    var head: nat
    var tail: nat

    ghost function View(): Queue
      reads this, data
    {
      Queue(data.Length, head, tail, data[..], [], [])
    }

    ghost predicate Valid()
      reads this, data
    {
      InRange(View()) && forall v | v in Contents(View()) :: v != 0
    }

    ghost function Waiting(): seq<int>
      reads this, data
      requires Valid()
    {
      Contents(View())
    }

    // queue_new
    constructor (size: nat)
      requires size > 0
      ensures Valid() && fresh(data) && data.Length == size && Waiting() == []
    {
      data := new int[size](_ => 0);
      head, tail := 0, 0;
    }

    // queue_push_int: true when the queue is full
    method Push(v: int) returns (full: bool)
      requires Valid() && v != 0
      modifies this`tail, data
      ensures Valid() && full == (|old(Waiting())| == data.Length - 1)
      ensures Waiting() == if full then old(Waiting()) else old(Waiting()) + [v]
    {
      hide Contents, Position, Length;
      FullTest(View());
      LengthOfContents(View());
      if Position(tail + 1, data.Length) == head { return true; }
      ghost var q := View();
      data[tail] := v;
      assert View() == q.(data := q.data[tail := v]);
      WriteToFreeCell(q, v);
      LengthOfContents(View());
      StoreTail(View(), v);
      tail := Position(tail + 1, data.Length);
      full := false;
    }

    // queue_pop_int: 0 when the queue is empty
    method Pop() returns (v: int)
      requires Valid()
      modifies this`head
      ensures Valid() && (v == 0 <==> old(Waiting()) == [])
      ensures if v == 0 then Waiting() == [] else old(Waiting()) == [v] + Waiting()
    {
      hide Contents, Position, Length;
      FullTest(View());
      if head == tail { return 0; }
      StoreHead(View());
      v := data[head];
      ghost var before := Contents(View());
      assert v in before;
      head := Position(head + 1, data.Length);
      forall x | x in Contents(View()) ensures x != 0 { assert x in before; }
    }

    // queue_length
    method Count() returns (n: int)
      requires Valid()
      ensures n == |Waiting()|
    {
      n := tail - head;
      if n < 0 { n := n + data.Length; }
    }
  }
}
