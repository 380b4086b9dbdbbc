// The meaning of the timer: a bag of timers on an unbounded clock.
//
// The wheel of src/timer.c is proved to behave like this bag (TimerWheel.dfy).
// Nothing here mentions slots, levels or 32-bit wrap-around.
module TimerSpec {

  // Delays accepted by ltask_timer_add: a non-negative C int.
  const MAX_DELAY := 0x8000_0000

  type Delay = d: int | 0 <= d < MAX_DELAY

  // A call of timer_add: the caller's payload and the requested delay.
  datatype Request = Request(arg: int, delay: Delay)

  // A request together with the clock value at which it was accepted.
  datatype Accepted = Accepted(at: nat, request: Request)

  // A pending timer. `serial` is its position in the order of additions.
  datatype Entry = Entry(due: nat, serial: nat, arg: int)

  datatype Firing = Firing(entry: Entry, at: nat)

  datatype Bag = Bag(clock: nat, pending: seq<Entry>, log: seq<Firing>, accepted: seq<Accepted>)

  datatype Event = Add(request: Request) | Fire | Tick

  function Empty(): Bag {
    Bag(0, [], [], [])
  }

  function EntryOf(a: Accepted, serial: nat): Entry {
    Entry(a.at + a.request.delay, serial, a.request.arg)
  }

  // The pending timers due exactly now, in order of addition ...
  function DueNow(pending: seq<Entry>, clock: nat): seq<Entry> {
    if pending == [] then [] else
      var last := pending[|pending| - 1];
      var front := DueNow(pending[..|pending| - 1], clock);
      if last.due == clock then front + [last] else front
  }

  // ... and the ones that stay.
  function Later(pending: seq<Entry>, clock: nat): seq<Entry> {
    if pending == [] then [] else
      var last := pending[|pending| - 1];
      var front := Later(pending[..|pending| - 1], clock);
      if last.due == clock then front else front + [last]
  }

  function Firings(entries: seq<Entry>, at: nat): (r: seq<Firing>)
    ensures |r| == |entries| && forall i | 0 <= i < |r| :: r[i] == Firing(entries[i], at)
  {
    seq(|entries|, i requires 0 <= i < |entries| => Firing(entries[i], at))
  }

  function AddTo(b: Bag, r: Request): Bag {
    var a := Accepted(b.clock, r);
    b.(pending := b.pending + [EntryOf(a, |b.accepted|)], accepted := b.accepted + [a])
  }

  function FireDue(b: Bag): Bag {
    b.(pending := Later(b.pending, b.clock), log := b.log + Firings(DueNow(b.pending, b.clock), b.clock))
  }

  // Time moves only when nothing is due.
  function Step(b: Bag, e: Event): Bag {
    match e
    case Add(r) => AddTo(b, r)
    case Fire => FireDue(b)
    case Tick => if DueNow(b.pending, b.clock) == [] then b.(clock := b.clock + 1) else b
  }

  function Run(b: Bag, events: seq<Event>): Bag {
    if events == [] then b else Step(Run(b, events[..|events| - 1]), events[|events| - 1])
  }

  lemma {:induction false} RunConcat(b: Bag, xs: seq<Event>, ys: seq<Event>)
    ensures Run(b, xs + ys) == Run(Run(b, xs), ys)
  {
    if ys == [] {
      assert xs + ys == xs;
    } else {
      var init := ys[..|ys| - 1];
      RunConcat(b, xs, init);
      assert (xs + ys)[..|xs + ys| - 1] == xs + init;
    }
  }

  // ---------------------------------------------------------------- invariant

  // Earlier expiry first; for equal expiry, the one added first.
  predicate Before(a: Entry, b: Entry) {
    a.due < b.due || (a.due == b.due && a.serial < b.serial)
  }

  predicate BySerial(s: seq<Entry>) {
    forall i, j | 0 <= i < j < |s| :: s[i].serial < s[j].serial
  }

  predicate Genuine(b: Bag, e: Entry) {
    e.serial < |b.accepted| && e == EntryOf(b.accepted[e.serial], e.serial)
  }

  predicate IsPending(b: Bag, serial: nat) {
    exists i | 0 <= i < |b.pending| :: b.pending[i].serial == serial
  }

  predicate HasFired(b: Bag, serial: nat) {
    exists i | 0 <= i < |b.log| :: b.log[i].entry.serial == serial
  }

  ghost predicate Inv(b: Bag) {
    && BySerial(b.pending)
    && (forall i | 0 <= i < |b.pending| ::
          Genuine(b, b.pending[i]) && b.clock <= b.pending[i].due < b.clock + MAX_DELAY)
    && (forall i | 0 <= i < |b.log| ::
          Genuine(b, b.log[i].entry) && b.log[i].at == b.log[i].entry.due <= b.clock)
    && (forall i, j | 0 <= i < j < |b.log| :: Before(b.log[i].entry, b.log[j].entry))
    && (forall i, j | 0 <= i < |b.log| && 0 <= j < |b.pending| :: Before(b.log[i].entry, b.pending[j]))
    && (forall k | 0 <= k < |b.accepted| :: IsPending(b, k) != HasFired(b, k))
  }

  lemma {:induction false} SplitMember(pending: seq<Entry>, clock: nat, e: Entry)
    ensures e in DueNow(pending, clock) <==> e in pending && e.due == clock
    ensures e in Later(pending, clock) <==> e in pending && e.due != clock
  {
    if pending != [] {
      var init, last := pending[..|pending| - 1], pending[|pending| - 1];
      SplitMember(init, clock, e);
      assert pending == init + [last];
    }
  }

  lemma SplitMembers(pending: seq<Entry>, clock: nat)
    ensures forall e :: e in DueNow(pending, clock) <==> e in pending && e.due == clock
    ensures forall e :: e in Later(pending, clock) <==> e in pending && e.due != clock
  {
    forall e
      ensures e in DueNow(pending, clock) <==> e in pending && e.due == clock
      ensures e in Later(pending, clock) <==> e in pending && e.due != clock
    {
      SplitMember(pending, clock, e);
    }
  }

  // Appending an entry added after all others keeps the order of addition.
  lemma BySerialAppend(s: seq<Entry>, last: Entry)
    requires BySerial(s) && forall e | e in s :: e.serial < last.serial
    ensures BySerial(s + [last])
  {
    forall i, j | 0 <= i < j < |s + [last]| ensures (s + [last])[i].serial < (s + [last])[j].serial {
      assert s[i] in s;
    }
  }

  lemma {:induction false} SplitOrdered(pending: seq<Entry>, clock: nat)
    requires BySerial(pending)
    ensures BySerial(DueNow(pending, clock)) && BySerial(Later(pending, clock))
  {
    if pending != [] {
      var init, last := pending[..|pending| - 1], pending[|pending| - 1];
      SplitOrdered(init, clock);
      SplitMembers(init, clock);
      if last.due == clock { BySerialAppend(DueNow(init, clock), last); }
      else { BySerialAppend(Later(init, clock), last); }
    }
  }

  lemma Split(pending: seq<Entry>, clock: nat)
    requires BySerial(pending)
    ensures BySerial(DueNow(pending, clock)) && BySerial(Later(pending, clock))
    ensures forall e :: e in DueNow(pending, clock) <==> e in pending && e.due == clock
    ensures forall e :: e in Later(pending, clock) <==> e in pending && e.due != clock
  {
    SplitMembers(pending, clock);
    SplitOrdered(pending, clock);
  }

  lemma AddKeepsInv(b: Bag, r: Request)
    requires Inv(b)
    ensures Inv(AddTo(b, r))
  {
    var c := AddTo(b, r);
    forall k | 0 <= k < |c.accepted| ensures IsPending(c, k) != HasFired(c, k) {
      if k < |b.accepted| {
        assert IsPending(b, k) != HasFired(b, k);
        if IsPending(b, k) {
          var i :| 0 <= i < |b.pending| && b.pending[i].serial == k;
          assert c.pending[i].serial == k;
        }
      } else {
        assert c.pending[|b.pending|].serial == k;
        assert !HasFired(c, k);
      }
    }
  }

  // After a drain nothing is due.
  lemma FireDrains(b: Bag)
    ensures DueNow(FireDue(b).pending, b.clock) == []
  {
    var later := Later(b.pending, b.clock);
    SplitMembers(b.pending, b.clock);
    SplitMembers(later, b.clock);
    if DueNow(later, b.clock) != [] {
      assert DueNow(later, b.clock)[0] in DueNow(later, b.clock);
    }
  }

  // The firings of one drain come after everything already in the log.
  lemma FireKeepsOrder(b: Bag)
    requires Inv(b)
    ensures var c := FireDue(b);
      && (forall i, j | 0 <= i < j < |c.log| :: Before(c.log[i].entry, c.log[j].entry))
      && (forall i, j | 0 <= i < |c.log| && 0 <= j < |c.pending| :: Before(c.log[i].entry, c.pending[j]))
  {
    var c, due, later := FireDue(b), DueNow(b.pending, b.clock), Later(b.pending, b.clock);
    Split(b.pending, b.clock);
    forall i, j | 0 <= i < j < |c.log| ensures Before(c.log[i].entry, c.log[j].entry) {
      if j >= |b.log| {
        assert due[j - |b.log|] in due;
        if i >= |b.log| { assert due[i - |b.log|] in due; }
      }
    }
    forall i, j | 0 <= i < |c.log| && 0 <= j < |later| ensures Before(c.log[i].entry, later[j]) {
      assert later[j] in later;
      if i >= |b.log| { assert due[i - |b.log|] in due; }
    }
  }

  lemma FireKeepsInv(b: Bag)
    requires Inv(b)
    ensures Inv(FireDue(b))
  {
    var c, due, later := FireDue(b), DueNow(b.pending, b.clock), Later(b.pending, b.clock);
    Split(b.pending, b.clock);
    forall i | 0 <= i < |c.log|
      ensures Genuine(c, c.log[i].entry) && c.log[i].at == c.log[i].entry.due <= c.clock
    {
      if i >= |b.log| { assert due[i - |b.log|] in due; }
    }
    forall i | 0 <= i < |later|
      ensures Genuine(c, later[i]) && c.clock <= later[i].due < c.clock + MAX_DELAY
    {
      assert later[i] in later;
    }
    FireKeepsOrder(b);
    forall k | 0 <= k < |c.accepted| ensures IsPending(c, k) != HasFired(c, k) {
      FireMovesSerial(b, k);
    }
  }

  // A timer that is due leaves the bag and enters the log; no other moves.
  lemma FirePending(b: Bag, k: nat)
    ensures IsPending(FireDue(b), k) <==> exists e | e in b.pending && e.due != b.clock :: e.serial == k
  {
    var later := Later(b.pending, b.clock);
    SplitMembers(b.pending, b.clock);
    if IsPending(FireDue(b), k) {
      var i :| 0 <= i < |later| && later[i].serial == k;
      assert later[i] in later;
    }
    if e :| e in b.pending && e.due != b.clock && e.serial == k {
      assert e in later;
      var i :| 0 <= i < |later| && later[i] == e;
      assert FireDue(b).pending[i].serial == k;
    }
  }

  lemma FireFired(b: Bag, k: nat)
    ensures HasFired(FireDue(b), k) <==>
            HasFired(b, k) || exists e | e in b.pending && e.due == b.clock :: e.serial == k
  {
    var c, due := FireDue(b), DueNow(b.pending, b.clock);
    SplitMembers(b.pending, b.clock);
    if HasFired(c, k) {
      var i :| 0 <= i < |c.log| && c.log[i].entry.serial == k;
      if i < |b.log| { assert b.log[i].entry.serial == k; } else { assert due[i - |b.log|] in due; }
    }
    if HasFired(b, k) {
      var i :| 0 <= i < |b.log| && b.log[i].entry.serial == k;
      assert c.log[i].entry.serial == k;
    }
    if e :| e in b.pending && e.due == b.clock && e.serial == k {
      assert e in due;
      var i :| 0 <= i < |due| && due[i] == e;
      assert c.log[|b.log| + i].entry.serial == k;
    }
  }

  lemma FireMovesSerial(b: Bag, k: nat)
    requires Inv(b) && k < |b.accepted|
    ensures IsPending(FireDue(b), k) != HasFired(FireDue(b), k)
  {
    FirePending(b, k);
    FireFired(b, k);
    assert IsPending(b, k) != HasFired(b, k);
    if IsPending(b, k) {
      var i :| 0 <= i < |b.pending| && b.pending[i].serial == k;
      assert b.pending[i] in b.pending;
    }
  }

  lemma TickKeepsInv(b: Bag)
    requires Inv(b) && DueNow(b.pending, b.clock) == []
    ensures Inv(Step(b, Tick))
  {
    Split(b.pending, b.clock);
    var c := Step(b, Tick);
    assert forall i | 0 <= i < |b.pending| :: b.pending[i] in b.pending;
    forall k | 0 <= k < |c.accepted| ensures IsPending(c, k) != HasFired(c, k) {
      assert IsPending(b, k) != HasFired(b, k);
      assert IsPending(c, k) == IsPending(b, k) && HasFired(c, k) == HasFired(b, k);
    }
  }

  lemma StepKeepsInv(b: Bag, e: Event)
    requires Inv(b)
    ensures Inv(Step(b, e))
  {
    match e
    case Add(r) => AddKeepsInv(b, r);
    case Fire => FireKeepsInv(b);
    case Tick => if DueNow(b.pending, b.clock) == [] { TickKeepsInv(b); }
  }

  lemma {:induction false} RunKeepsInv(b: Bag, events: seq<Event>)
    requires Inv(b)
    ensures Inv(Run(b, events))
  {
    if events != [] {
      RunKeepsInv(b, events[..|events| - 1]);
      StepKeepsInv(Run(b, events[..|events| - 1]), events[|events| - 1]);
    }
  }

  // ------------------------------------------------------------ main results

  function TimesFired(log: seq<Firing>, serial: nat): nat {
    if log == [] then 0
    else TimesFired(log[..|log| - 1], serial) + (if log[|log| - 1].entry.serial == serial then 1 else 0)
  }

  lemma {:induction false} TimesFiredZero(log: seq<Firing>, serial: nat)
    requires forall i | 0 <= i < |log| :: log[i].entry.serial != serial
    ensures TimesFired(log, serial) == 0
  {
    if log != [] { TimesFiredZero(log[..|log| - 1], serial); }
  }

  lemma {:induction false} TimesFiredOnce(log: seq<Firing>, serial: nat, i: nat)
    requires i < |log| && log[i].entry.serial == serial
    requires forall j | 0 <= j < |log| && j != i :: log[j].entry.serial != serial
    ensures TimesFired(log, serial) == 1
  {
    if i == |log| - 1 {
      TimesFiredZero(log[..i], serial);
    } else {
      TimesFiredOnce(log[..|log| - 1], serial, i);
    }
  }

  // Over every run: the k-th accepted timer has fired exactly once when its
  // due time has passed, never before its due time, at most once in between,
  // and the clock of its firing is the acceptance clock plus the delay.
  lemma FiresExactlyOnTime(events: seq<Event>, k: nat)
    requires k < |Run(Empty(), events).accepted|
    ensures var b := Run(Empty(), events);
            var due := b.accepted[k].at + b.accepted[k].request.delay;
            && (due < b.clock ==> TimesFired(b.log, k) == 1 && !IsPending(b, k))
            && (b.clock < due ==> TimesFired(b.log, k) == 0 && IsPending(b, k))
            && (b.clock == due ==> TimesFired(b.log, k) == (if IsPending(b, k) then 0 else 1))
            && (forall i | 0 <= i < |b.log| && b.log[i].entry.serial == k ::
                  b.log[i].at == due && b.log[i].entry.arg == b.accepted[k].request.arg)
  {
    RunKeepsInv(Empty(), events);
    var b := Run(Empty(), events);
    assert IsPending(b, k) != HasFired(b, k);
    if HasFired(b, k) {
      var i :| 0 <= i < |b.log| && b.log[i].entry.serial == k;
      forall j | 0 <= j < |b.log| && j != i ensures b.log[j].entry.serial != k {
        var first, second := if i < j then i else j, if i < j then j else i;
        assert Before(b.log[first].entry, b.log[second].entry);
      }
      TimesFiredOnce(b.log, k, i);
    } else {
      TimesFiredZero(b.log, k);
    }
  }

  // Requests are accepted once and for all.
  lemma {:induction false} AcceptedGrows(b: Bag, events: seq<Event>)
    ensures b.accepted <= Run(b, events).accepted
  {
    if events != [] { AcceptedGrows(b, events[..|events| - 1]); }
  }

  // The clock value at which the k-th accepted timer is due.
  function DueAt(b: Bag, k: nat): nat
    requires k < |b.accepted|
  {
    b.accepted[k].at + b.accepted[k].request.delay
  }

  // Among the first n timers accepted, all that are due have fired, once.
  ghost predicate FiredUpTo(b: Bag, n: nat) {
    n <= |b.accepted| && forall k | 0 <= k < n && DueAt(b, k) <= b.clock :: TimesFired(b.log, k) == 1
  }

  // So it is whenever nothing is due.
  lemma DrainedHasFired(events: seq<Event>)
    requires var b := Run(Empty(), events); DueNow(b.pending, b.clock) == []
    ensures var b := Run(Empty(), events); FiredUpTo(b, |b.accepted|)
  {
    hide Inv, TimesFired;
    var b := Run(Empty(), events);
    RunKeepsInv(Empty(), events);
    forall k | 0 <= k < |b.accepted| && DueAt(b, k) <= b.clock ensures TimesFired(b.log, k) == 1 {
      FiresExactlyOnTime(events, k);
      if IsPending(b, k) { PendingIsDue(b, k); }
    }
  }

  lemma PendingIsDue(b: Bag, k: nat)
    requires Inv(b) && k < |b.accepted| && IsPending(b, k) && DueAt(b, k) == b.clock
    ensures DueNow(b.pending, b.clock) != []
  {
    var i :| 0 <= i < |b.pending| && b.pending[i].serial == k;
    assert Genuine(b, b.pending[i]);
    SplitMember(b.pending, b.clock, b.pending[i]);
  }

  // Over every run: firings are ordered by expiry and, for equal expiry, by
  // the order in which the timers were added.
  lemma FiringOrderIsStable(events: seq<Event>, i: nat, j: nat)
    requires i < j < |Run(Empty(), events).log|
    ensures var log := Run(Empty(), events).log;
            Before(log[i].entry, log[j].entry) && log[i].at <= log[j].at
  {
    RunKeepsInv(Empty(), events);
  }
}
