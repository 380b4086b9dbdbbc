// The timing wheel of src/timer.c, proved to behave like the bag of TimerSpec.
//
// A linked list with its tail pointer is a sequence stored in an array cell.
// While timer_execute has dropped the lock other threads may call timer_add;
// those calls are the input `env`: one batch of requests per unlocked window.
module TimerWheel {
  import opened TimerSpec
  import opened Division
  import opened TimerPlacement

  datatype Node = Node(expire: uint32, arg: int)

  function NodeOf(e: Entry): Node {
    Node(e.due % WRAP, e.arg)
  }

  // The pending timers whose place is `s` at time `t`, in order of addition.
  function NodesAt(pending: seq<Entry>, s: Slot, t: uint32): seq<Node> {
    if pending == [] then [] else
      var last := pending[|pending| - 1];
      var front := NodesAt(pending[..|pending| - 1], s, t);
      if Place(last.due % WRAP, t) == s then front + [NodeOf(last)] else front
  }

  // Of a list of nodes, those whose place is `s` at time `t`.
  function Moving(nodes: seq<Node>, s: Slot, t: uint32): seq<Node> {
    if nodes == [] then [] else
      var last := nodes[|nodes| - 1];
      var front := Moving(nodes[..|nodes| - 1], s, t);
      if Place(last.expire, t) == s then front + [last] else front
  }

  predicate InWindow(e: Entry, clock: nat) {
    clock <= e.due < clock + MAX_DELAY
  }

  // ------------------------------------------------------------ list lemmas

  lemma {:induction false} NodesAtConcat(xs: seq<Entry>, e: Entry, s: Slot, t: uint32)
    ensures NodesAt(xs + [e], s, t) == (if Place(e.due % WRAP, t) == s then NodesAt(xs, s, t) + [NodeOf(e)] else NodesAt(xs, s, t))
  {
    hide Place;
    assert (xs + [e])[..|xs + [e]| - 1] == xs;
  }

  lemma {:induction false} MovingConcat(xs: seq<Node>, n: Node, s: Slot, t: uint32)
    ensures Moving(xs + [n], s, t) == (if Place(n.expire, t) == s then Moving(xs, s, t) + [n] else Moving(xs, s, t))
  {
    hide Place;
    assert (xs + [n])[..|xs + [n]| - 1] == xs;
  }

  lemma MovingNothing(t: uint32)
    ensures forall s :: Moving([], s, t) == []
  {
  }

  // What a tick leaves in place, empties and refills, list by list.
  lemma {:induction false} NodesAfterTick(pending: seq<Entry>, clock: nat, s: Slot)
    requires forall e | e in pending :: clock < e.due < clock + MAX_DELAY
    ensures var t, ct := clock % WRAP, (clock + 1) % WRAP;
      if !Cascades(ct) then NodesAt(pending, s, ct) == NodesAt(pending, s, t)
      else
        var c := Cascaded(ct);
        && (s == c ==> NodesAt(pending, s, ct) == [])
        && (Rank(s) < Rank(c) ==>
              NodesAt(pending, s, t) == [] && NodesAt(pending, s, ct) == Moving(NodesAt(pending, c, t), s, ct))
        && (Rank(s) >= Rank(c) && s != c ==>
              NodesAt(pending, s, ct) == NodesAt(pending, s, t) && Moving(NodesAt(pending, c, t), s, ct) == [])
        && (s == c ==> Moving(NodesAt(pending, c, t), s, ct) == [])
  {
    hide Place, Cascaded;
    if pending != [] {
      var init, last := pending[..|pending| - 1], pending[|pending| - 1];
      assert last in pending;
      NodesAfterTick(init, clock, s);
      PlaceAfterTick(last.due, clock);
      var t, ct := clock % WRAP, (clock + 1) % WRAP;
      if Cascades(ct) {
        MovingConcat(NodesAt(init, Cascaded(ct), t), NodeOf(last), s, ct);
      }
    }
  }

  // Draining the slot of the current time fires exactly what is due.
  lemma {:induction false} NodesAfterFire(pending: seq<Entry>, clock: nat, s: Slot)
    requires forall e | e in pending :: InWindow(e, clock)
    ensures var t := clock % WRAP;
      NodesAt(Later(pending, clock), s, t) == if s == Near(t % TIME_NEAR) then [] else NodesAt(pending, s, t)
  {
    if pending != [] {
      var init, last := pending[..|pending| - 1], pending[|pending| - 1];
      assert last in pending;
      NodesAfterFire(init, clock, s);
      hide Place;
      DueSlot(last.due, clock);
      if last.due == clock {
        assert Later(pending, clock) == Later(init, clock);
      } else {
        NodesAtConcat(Later(init, clock), last, s, clock % WRAP);
      }
    }
  }

  lemma {:induction false} DueNodes(pending: seq<Entry>, clock: nat)
    requires forall e | e in pending :: InWindow(e, clock)
    ensures var t := clock % WRAP;
      var due, nodes := DueNow(pending, clock), NodesAt(pending, Near(t % TIME_NEAR), t);
      |nodes| == |due| && forall i | 0 <= i < |due| :: nodes[i].arg == due[i].arg
  {
    if pending != [] {
      var init, last := pending[..|pending| - 1], pending[|pending| - 1];
      assert last in pending;
      DueNodes(init, clock);
      DueSlot(last.due, clock);
    }
  }

  // The arguments in the list of the current slot are those of the firings.
  lemma DueArgs(b: Bag, nodes: seq<Node>, args: seq<int>)
    requires (forall e | e in b.pending :: InWindow(e, b.clock))
    requires nodes == NodesAt(b.pending, Near(b.clock % WRAP % TIME_NEAR), b.clock % WRAP)
    requires |args| == |nodes| && forall i | 0 <= i < |nodes| :: args[i] == nodes[i].arg
    ensures |b.log| <= |FireDue(b).log| && args == LogArgs(FireDue(b).log[|b.log|..])
  {
    hide Place, NodesAt;
    DueNodes(b.pending, b.clock);
    assert FireDue(b).log[|b.log|..] == Firings(DueNow(b.pending, b.clock), b.clock);
  }

  lemma FireIs(b: Bag)
    ensures FireDue(b).clock == b.clock && FireDue(b).pending == Later(b.pending, b.clock)
    ensures Step(b, Fire) == FireDue(b)
  {
  }

  // -------------------------------------------------------------- the events

  function Adds(batch: seq<Request>): (r: seq<Event>)
    ensures |r| == |batch|
  {
    seq(|batch|, i requires 0 <= i < |batch| => TimerSpec.Add(batch[i]))
  }

  function Batch(env: seq<seq<Request>>, k: nat): seq<Request> {
    if k < |env| then env[k] else []
  }

  function Unused(env: seq<seq<Request>>, windows: nat): seq<seq<Request>> {
    if windows < |env| then env[windows..] else []
  }

  // What happens in the first `windows` rounds of a drain: fire all that is
  // due, then let the other threads' requests in.
  function WindowEvents(env: seq<seq<Request>>, windows: nat): seq<Event> {
    if windows == 0 then []
    else WindowEvents(env, windows - 1) + ([Fire] + Adds(Batch(env, windows - 1)))
  }

  // The requests no drain has used after the ticks with these numbers of rounds.
  function LeftOver(env: seq<seq<Request>>, rounds: seq<(nat, nat)>): seq<seq<Request>>
    decreases |rounds|
  {
    if rounds == [] then env
    else
      var before, last := LeftOver(env, rounds[..|rounds| - 1]), rounds[|rounds| - 1];
      Unused(Unused(before, last.0), last.1)
  }

  // What happens in an update: for each tick a drain, the tick, another drain,
  // and the requests that arrive before the next one.
  function UpdateEvents(env: seq<seq<Request>>, between: seq<seq<Request>>, rounds: seq<(nat, nat)>): seq<Event>
    decreases |rounds|
  {
    if rounds == [] then []
    else
      var front, last := rounds[..|rounds| - 1], rounds[|rounds| - 1];
      var before := LeftOver(env, front);
      UpdateEvents(env, between, front) +
      (WindowEvents(before, last.0) + [Tick] + WindowEvents(Unused(before, last.0), last.1)) + Adds(Batch(between, |front|))
  }

  lemma NoUpdateYet(env: seq<seq<Request>>, between: seq<seq<Request>>, first: seq<Event>)
    ensures LeftOver(env, []) == env && first + UpdateEvents(env, between, []) == first
  {
  }

  lemma UpdateNext(env: seq<seq<Request>>, between: seq<seq<Request>>, rounds: seq<(nat, nat)>, n: nat, m: nat, first: seq<Event>)
    ensures var before := LeftOver(env, rounds);
      && LeftOver(env, rounds + [(n, m)]) == Unused(Unused(before, n), m)
      && first + UpdateEvents(env, between, rounds + [(n, m)]) ==
         first + UpdateEvents(env, between, rounds) +
         (WindowEvents(before, n) + [Tick] + WindowEvents(Unused(before, n), m)) + Adds(Batch(between, |rounds|))
  {
    hide WindowEvents, Adds, Unused;
    assert (rounds + [(n, m)])[..|rounds|] == rounds;
    var a, b, c := UpdateEvents(env, between, rounds),
      WindowEvents(LeftOver(env, rounds), n) + [Tick] + WindowEvents(Unused(LeftOver(env, rounds), n), m), Adds(Batch(between, |rounds|));
    assert first + (a + b + c) == first + a + b + c;
  }

  // Requests that come after a drain change nothing about what has fired.
  lemma FiredStays(b: Bag, n: nat, batch: seq<Request>)
    requires FiredUpTo(b, n)
    ensures var c := Run(b, Adds(batch)); c.log == b.log && c.clock == b.clock ==> FiredUpTo(c, n)
    ensures |Run(b, Adds(batch)).accepted| == |b.accepted| + |batch|
  {
    AcceptedGrows(b, Adds(batch));
    AddsCounted(b, batch);
  }

  lemma GrewFrom(before: seq<Event>, after: seq<Event>)
    requires before <= after
    ensures Run(Empty(), before).accepted <= Run(Empty(), after).accepted
  {
    RunConcat(Empty(), before, after[|before|..]);
    AcceptedGrows(Run(Empty(), before), after[|before|..]);
    assert before + after[|before|..] == after;
  }

  lemma {:induction false} AddsCounted(b: Bag, batch: seq<Request>)
    ensures |Run(b, Adds(batch)).accepted| == |b.accepted| + |batch|
  {
    if batch != [] {
      var front, last := batch[..|batch| - 1], batch[|batch| - 1];
      assert Adds(batch) == Adds(front) + [TimerSpec.Add(last)];
      RunExtend(b, Adds(front), TimerSpec.Add(last));
      AddsCounted(b, front);
    } else {
      assert Adds(batch) == [];
    }
  }

  function LogArgs(log: seq<Firing>): (r: seq<int>)
    ensures |r| == |log| && forall i | 0 <= i < |r| :: r[i] == log[i].entry.arg
  {
    seq(|log|, i requires 0 <= i < |log| => log[i].entry.arg)
  }

  lemma LogArgsEmpty(log: seq<Firing>)
    ensures LogArgs(log[|log|..]) == []
  {
  }

  lemma LogArgsExtend(a: seq<Firing>, b: seq<Firing>, c: seq<Firing>)
    requires a <= b <= c
    ensures LogArgs(c[|a|..]) == LogArgs(b[|a|..]) + LogArgs(c[|b|..])
  {
    assert c[|a|..] == b[|a|..] + c[|b|..];
  }

  lemma RunExtend(b: Bag, events: seq<Event>, e: Event)
    ensures Run(b, events + [e]) == Step(Run(b, events), e)
  {
    assert (events + [e])[..|events|] == events;
  }

  lemma ModOfSum(clock: nat, d: nat)
    ensures (d + clock % WRAP) % WRAP == (clock + d) % WRAP
  {
    ModOfMod(d + clock, WRAP, 1);
    var q := clock / WRAP;
    var y := d + clock % WRAP;
    assert clock + d == (q + y / WRAP) * WRAP + y % WRAP;
    Quotient(clock + d, WRAP, q + y / WRAP, y % WRAP);
  }

  lemma NothingDue(b: Bag)
    requires Inv(b) && DueNow(b.pending, b.clock) == []
    ensures forall e | e in b.pending :: b.clock < e.due < b.clock + MAX_DELAY
  {
    SplitMembers(b.pending, b.clock);
  }

  lemma WithinWindow(b: Bag)
    requires Inv(b)
    ensures forall e | e in b.pending :: InWindow(e, b.clock)
  {
  }

  // ------------------------------------------------------------------ class

  class Timer {
    var near: array<seq<Node>>
    var far: array2<seq<Node>>
    var time: uint32
    var current: int
    var currentPoint: nat
    ghost var bag: Bag
    ghost var events: seq<Event>

    predicate Shape()
      reads this`near, this`far
    {
      near.Length == TIME_NEAR && far.Length0 == LEVELS && far.Length1 == TIME_LEVEL
    }

    function List(s: Slot): seq<Node>
      reads this`near, this`far, near, far
      requires Shape() && ValidSlot(s)
    {
      match s
      case Near(i) => near[i]
      case Level(l, i) => far[l, i]
    }

    // Every slot holds, in order of addition, the pending timers placed there.
    ghost predicate Placed()
      reads this`near, this`far, this`time, this`bag, near, far
      requires Shape()
    {
      forall s | ValidSlot(s) :: List(s) == NodesAt(bag.pending, s, time)
    }

    ghost predicate Valid()
      reads this`near, this`far, this`time, this`bag, this`events, near, far
    {
      && Shape()
      && time == bag.clock % WRAP
      && Inv(bag)
      && bag == Run(Empty(), events)
      && Placed()
    }

    constructor (now: nat, wall: nat)
      ensures Valid() && bag == Empty() && events == []
      ensures current == wall % 100 && currentPoint == now
      ensures fresh(near) && fresh(far)
    {
      near := new seq<Node>[TIME_NEAR](_ => []);
      far := new seq<Node>[LEVELS, TIME_LEVEL]((_, _) => []);
      time := 0;
      current := wall % 100;
      currentPoint := now;
      bag := Empty();
      events := [];
    }

    method AddNode(node: Node)
      requires Shape()
      modifies near, far
      ensures forall s | ValidSlot(s) ::
        List(s) == if s == Place(node.expire, time) then old(List(s)) + [node] else old(List(s))
    {
      var e := node.expire;
      if SameBlock(e, time, TIME_NEAR) {
        near[e % TIME_NEAR] := near[e % TIME_NEAR] + [node];
      } else {
        var i, mask, shift := 0, TIME_NEAR * TIME_LEVEL, TIME_NEAR;
        while i < 3 && !SameBlock(e, time, mask)
          invariant 0 <= i <= 3
          invariant shift == if i == 0 then 0x100 else if i == 1 then 0x4000 else if i == 2 then 0x10_0000 else 0x400_0000
          invariant mask == shift * TIME_LEVEL
          invariant i > 0 ==> !SameBlock(e, time, 0x4000)
          invariant i > 1 ==> !SameBlock(e, time, 0x10_0000)
          invariant i > 2 ==> !SameBlock(e, time, 0x400_0000)
        {
          i, mask, shift := i + 1, mask * TIME_LEVEL, shift * TIME_LEVEL;
        }
        assert Place(e, time) == Level(i, e / shift % TIME_LEVEL);
        far[i, e / shift % TIME_LEVEL] := far[i, e / shift % TIME_LEVEL] + [node];
      }
    }

    // timer_add: the new timer is due `delay` ticks from now.
    method Add(r: Request)
      requires Valid()
      modifies this`bag, this`events, near, far
      ensures Valid() && bag == AddTo(old(bag), r) && events == old(events) + [TimerSpec.Add(r)]
    {
      hide Inv, NodesAt;
      ghost var entry := EntryOf(Accepted(bag.clock, r), |bag.accepted|);
      var node := Node((r.delay + time) % WRAP, r.arg);
      assert node == NodeOf(entry) by { ModOfSum(bag.clock, r.delay); }
      AddNode(node);
      AddKeepsInv(bag, r);
      forall s | ValidSlot(s) ensures List(s) == NodesAt(bag.pending + [entry], s, time) {
        NodesAtConcat(bag.pending, entry, s, time);
      }
      RunExtend(Empty(), events, TimerSpec.Add(r));
      bag, events := AddTo(bag, r), events + [TimerSpec.Add(r)];
    }

    method AddAll(batch: seq<Request>)
      requires Valid()
      modifies this`bag, this`events, near, far
      ensures Valid() && bag == Run(old(bag), Adds(batch)) && events == old(events) + Adds(batch)
      ensures bag.clock == old(bag.clock) && bag.log == old(bag.log)
    {
      hide Valid, Inv;
      var i := 0;
      assert Adds(batch[..0]) == [];
      while i < |batch|
        invariant 0 <= i <= |batch| && Valid()
        invariant bag == Run(old(bag), Adds(batch[..i])) && events == old(events) + Adds(batch[..i])
        invariant bag.clock == old(bag.clock) && bag.log == old(bag.log)
      {
        assert Adds(batch[..i + 1]) == Adds(batch[..i]) + [TimerSpec.Add(batch[i])];
        RunExtend(old(bag), Adds(batch[..i]), TimerSpec.Add(batch[i]));
        Add(batch[i]);
        i := i + 1;
      }
      assert batch[..i] == batch;
    }

    // move_list: empty one slot and place its nodes again, in order.
    method MoveList(level: int, idx: int)
      requires Shape() && 0 <= level < LEVELS && 0 <= idx < TIME_LEVEL
      modifies near, far
      ensures forall s | ValidSlot(s) ::
        List(s) == (if s == Level(level, idx) then [] else old(List(s))) + Moving(old(far[level, idx]), s, time)
    {
      hide Place, Moving;
      var nodes := far[level, idx];
      assert forall s :: Moving(nodes[..0], s, time) == [] by { MovingNothing(time); }
      far[level, idx] := [];
      ghost var c := Level(level, idx);
      var i := 0;
      while i < |nodes|
        invariant 0 <= i <= |nodes|
        invariant forall s | ValidSlot(s) ::
          List(s) == (if s == c then [] else old(List(s))) + Moving(nodes[..i], s, time)
      {
        assert nodes[..i + 1] == nodes[..i] + [nodes[i]];
        forall s ensures Moving(nodes[..i + 1], s, time) ==
          if Place(nodes[i].expire, time) == s then Moving(nodes[..i], s, time) + [nodes[i]] else Moving(nodes[..i], s, time)
        {
          MovingConcat(nodes[..i], nodes[i], s, time);
        }
        AddNode(nodes[i]);
        i := i + 1;
      }
      assert nodes[..i] == nodes;
    }

    // The cascade of timer_shift: the slot to empty is found level by level.
    method Cascade()
      requires Shape()
      modifies near, far
      ensures forall s | ValidSlot(s) ::
        List(s) == if !Cascades(time) then old(List(s)) else
          (if s == Cascaded(time) then [] else old(List(s))) + Moving(old(List(Cascaded(time))), s, time)
    {
      hide Place, Moving;
      var ct := time;
      if ct == 0 {
        MoveList(3, 0);
      } else {
        var i, mask, block := 0, TIME_NEAR, ct / TIME_NEAR;
        while ct % mask == 0
          invariant 0 <= i <= 3
          invariant mask == if i == 0 then 0x100 else if i == 1 then 0x4000 else if i == 2 then 0x10_0000 else 0x400_0000
          invariant block == ct / mask
          invariant i > 0 ==> ct % mask == 0 && Cascades(ct) && Rank(Cascaded(ct)) >= i
          invariant forall s | ValidSlot(s) :: List(s) == old(List(s))
          decreases 4 - i
        {
          var idx := block % TIME_LEVEL;
          if idx != 0 {
            assert Cascaded(ct) == Level(i, idx);
            MoveList(i, idx);
            break;
          }
          assert i < 3;
          DivOfProduct(ct, mask, TIME_LEVEL);
          i, mask, block := i + 1, mask * TIME_LEVEL, block / TIME_LEVEL;
        }
      }
    }

    // timer_shift: advance by one and cascade at most one slot.
    method Shift()
      requires Valid() && DueNow(bag.pending, bag.clock) == []
      modifies this`time, this`bag, this`events, near, far
      ensures Valid() && bag == old(bag).(clock := old(bag).clock + 1) && events == old(events) + [Tick]
    {
      hide Inv, Run, Place, Moving, NodesAt, Cascaded;
      NothingDue(bag);
      ModOfSum(bag.clock, 1);
      time := (time + 1) % WRAP;
      Cascade();
      forall s | ValidSlot(s) ensures List(s) == NodesAt(bag.pending, s, time) {
        NodesAfterTick(bag.pending, bag.clock, s);
      }
      TickKeepsInv(bag);
      RunExtend(Empty(), events, Tick);
      bag, events := bag.(clock := bag.clock + 1), events + [Tick];
    }

    // The locked half of a drain: take the whole list of the current slot.
    method TakeDue() returns (args: seq<int>)
      requires Valid()
      modifies this`bag, this`events, near, far
      ensures Valid() && bag == FireDue(old(bag)) && events == old(events) + [Fire]
      ensures args == LogArgs(bag.log[|old(bag).log|..])
    {
      hide Inv, Place, NodesAt, Run, LogArgs, FireDue;
      WithinWindow(bag);
      var idx := time % TIME_NEAR;
      var nodes := near[idx];
      assert nodes == List(Near(idx));
      near[idx] := [];
      args := seq(|nodes|, i requires 0 <= i < |nodes| => nodes[i].arg);
      DueArgs(bag, nodes, args);
      FireKeepsInv(bag);
      FireIs(bag);
      forall s | ValidSlot(s) ensures List(s) == NodesAt(Later(bag.pending, bag.clock), s, time) {
        NodesAfterFire(bag.pending, bag.clock, s);
      }
      RunExtend(Empty(), events, Fire);
      bag, events := FireDue(bag), events + [Fire];
    }

    // One round of a drain: take the slot's list, then drop the lock for the
    // callbacks, during which the requests of `batch` arrive.
    method Round(batch: seq<Request>) returns (args: seq<int>)
      requires Valid()
      modifies this`bag, this`events, near, far
      ensures Valid() && bag.clock == old(bag).clock && old(bag).log <= bag.log
      ensures args == LogArgs(bag.log[|old(bag).log|..])
      ensures events == old(events) + ([Fire] + Adds(batch))
      ensures batch == [] ==> near[time % TIME_NEAR] == []
    {
      hide Inv, Place, NodesAt, DueNow, Later;
      args := TakeDue();
      FireDrains(old(bag));
      AddAll(batch);
      if batch == [] {
        assert Adds(batch) == [];
        DueListEmpty();
      }
    }

    // The current slot is empty just when nothing is due.
    lemma DueListEmpty()
      requires Valid()
      ensures near[time % TIME_NEAR] == [] <==> DueNow(bag.pending, bag.clock) == []
    {
      hide Inv, Place, NodesAt, DueNow;
      WithinWindow(bag);
      DueNodes(bag.pending, bag.clock);
      assert near[time % TIME_NEAR] == List(Near(time % TIME_NEAR));
    }

    // timer_execute: drain the slot of the current time. The lock is dropped
    // around the callbacks; window k lets the requests env[k] in. The result
    // is the callback arguments in order of the calls.
    method Execute(env: seq<seq<Request>>) returns (calls: seq<int>, rest: seq<seq<Request>>, ghost windows: nat)
      requires Valid()
      modifies this`bag, this`events, near, far
      ensures Valid() && DueNow(bag.pending, bag.clock) == []
      ensures bag.clock == old(bag).clock && old(bag).log <= bag.log
      ensures calls == LogArgs(bag.log[|old(bag).log|..])
      ensures events == old(events) + WindowEvents(env, windows) && rest == Unused(env, windows)
    {
      hide Inv, Placed, Place, NodesAt, DueNow, Later, Run, LogArgs;
      LogArgsEmpty(bag.log);
      calls, rest, windows := [], env, 0;
      var idx := time % TIME_NEAR;
      while near[idx] != []
        invariant Valid() && idx == time % TIME_NEAR
        invariant bag.clock == old(bag).clock && old(bag).log <= bag.log
        invariant calls == LogArgs(bag.log[|old(bag).log|..])
        invariant events == old(events) + WindowEvents(env, windows) && rest == Unused(env, windows)
        decreases |rest|, near[idx] != []
      {
        assert Batch(env, windows) == if rest == [] then [] else rest[0];
        ghost var seen := bag.log;
        var args := Round(if rest == [] then [] else rest[0]);
        LogArgsExtend(old(bag).log, seen, bag.log);
        calls := calls + args;
        rest := if rest == [] then [] else rest[1..];
        windows := windows + 1;
      }
      DueListEmpty();
    }

    // timer_update_tick: drain, move time by one, drain again.
    method UpdateTick(env: seq<seq<Request>>)
      returns (calls: seq<int>, rest: seq<seq<Request>>, ghost n: nat, ghost m: nat)
      requires Valid()
      modifies this`time, this`bag, this`events, near, far
      ensures Valid() && DueNow(bag.pending, bag.clock) == []
      ensures bag.clock == old(bag).clock + 1 && old(bag).log <= bag.log
      ensures events == old(events) + (WindowEvents(env, n) + [Tick] + WindowEvents(Unused(env, n), m))
      ensures rest == Unused(Unused(env, n), m)
      ensures calls == LogArgs(bag.log[|old(bag).log|..])
    {
      hide Valid, Inv, Placed, DueNow, Later, LogArgs;
      calls, rest, n := Execute(env);
      Shift();
      ghost var seen := bag.log;
      var more;
      more, rest, m := Execute(rest);
      LogArgsExtend(old(bag).log, seen, bag.log);
      calls := calls + more;
    }

    lemma Drained()
      requires Valid() && DueNow(bag.pending, bag.clock) == []
      ensures FiredUpTo(bag, |bag.accepted|)
    {
      hide Inv, Placed, FiredUpTo;
      DrainedHasFired(events);
    }

    lemma BagIs()
      requires Valid()
      ensures bag == Run(Empty(), events)
    {
      hide Inv, Placed, Run;
    }

    // One tick, and the lock is free until the next.
    method TickAndWait(env: seq<seq<Request>>, batch: seq<Request>)
      returns (calls: seq<int>, rest: seq<seq<Request>>, ghost n: nat, ghost m: nat)
      requires Valid()
      modifies this`time, this`bag, this`events, near, far
      ensures Valid() && bag.clock == old(bag).clock + 1 && old(bag).log <= bag.log
      ensures events == old(events) + (WindowEvents(env, n) + [Tick] + WindowEvents(Unused(env, n), m)) + Adds(batch)
      ensures rest == Unused(Unused(env, n), m) && calls == LogArgs(bag.log[|old(bag).log|..])
      ensures |old(bag).accepted| + |batch| <= |bag.accepted| && FiredUpTo(bag, |bag.accepted| - |batch|)
    {
      hide Valid, Inv, LogArgs, FiredUpTo, WindowEvents, DueNow, Run;
      BagIs();
      calls, rest, n, m := UpdateTick(env);
      BagIs();
      GrewFrom(old(events), events);
      Drained();
      ghost var drained := bag;
      AddAll(batch);
      FiredStays(drained, |drained.accepted|, batch);
    }

    // timer_update: one tick for every unit of monotonic time that has passed;
    // none when the clock did not move or went backwards. Other threads may
    // add timers between two ticks too; `between` lists those requests. When
    // it returns, every timer that is due has fired, but for those that came
    // after the last drain.
    method Update(cp: nat, env: seq<seq<Request>>, between: seq<seq<Request>>)
      returns (calls: seq<int>, ghost rounds: seq<(nat, nat)>)
      requires Valid()
      modifies this, near, far
      ensures Valid() && near == old(near) && far == old(far) && currentPoint == cp
      ensures |rounds| == if cp <= old(currentPoint) then 0 else (cp - old(currentPoint)) % WRAP
      ensures bag.clock == old(bag).clock + |rounds| && current == old(current) + |rounds|
      ensures old(bag).log <= bag.log && calls == LogArgs(bag.log[|old(bag).log|..])
      ensures events == old(events) + UpdateEvents(env, between, rounds)
      ensures rounds != [] ==>
        var late := |Batch(between, |rounds| - 1)|;
        |old(bag).accepted| + late <= |bag.accepted| && FiredUpTo(bag, |bag.accepted| - late)
    {
      hide Valid, Inv, LogArgs, FiredUpTo, WindowEvents, DueNow, Adds, UpdateEvents, LeftOver, Unused, Run, Batch;
      NoUpdateYet(env, between, events);
      calls, rounds := [], [];
      LogArgsEmpty(bag.log);
      if cp < currentPoint {
        currentPoint := cp;
      } else if cp != currentPoint {
        var diff := (cp - currentPoint) % WRAP;
        currentPoint := cp;
        current := current + diff;
        var i, rest := 0, env;
        while i < diff
          invariant 0 <= i == |rounds| <= diff && Valid() && near == old(near) && far == old(far)
          invariant currentPoint == cp && current == old(current) + diff
          invariant bag.clock == old(bag).clock + i
          invariant old(bag).log <= bag.log && calls == LogArgs(bag.log[|old(bag).log|..])
          invariant events == old(events) + UpdateEvents(env, between, rounds) && rest == LeftOver(env, rounds)
          invariant |old(bag).accepted| <= |bag.accepted|
          invariant i > 0 ==>
            var late := |Batch(between, i - 1)|;
            |old(bag).accepted| + late <= |bag.accepted| && FiredUpTo(bag, |bag.accepted| - late)
        {
          ghost var seen := bag.log;
          ghost var n, m;
          var more;
          more, rest, n, m := TickAndWait(rest, Batch(between, i));
          LogArgsExtend(old(bag).log, seen, bag.log);
          calls := calls + more;
          UpdateNext(env, between, rounds, n, m, old(events));
          rounds := rounds + [(n, m)];
          i := i + 1;
        }
      }
    }
  }
}
