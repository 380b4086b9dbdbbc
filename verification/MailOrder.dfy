// In which order messages are read: each service takes from its mailbox what
// was delivered to it, in the order of delivery.
module MailOrder {
  import opened Mail
  import opened MailTheorem

  // The service is not there yet, or no more.
  predicate Gone(v: Service) {
    v.status == Absent || v.status == Uninitialized
  }

  // It lives and its mailbox has room.
  predicate Takes(p: Pool, x: nat) {
    var v := At(p, x);
    v.status != Absent && v.status != Dead && |v.inbox| < p.capacity
  }

  // The message that the step delivers to x, if any: one that was sent to it,
  // the report of a death for root, or a tick when it has nothing else.
  function Arrival(p: Pool, e: Event, x: nat): seq<Message> {
    if e.Push? && p.phase.Routing? && p.phase.x < |p.s| && Takes(p, x) then
      if p.s[p.phase.x].status == Dead then (if x == ROOT then [p.phase.m] else [])
      else if p.phase.m.kind == To(x) then [p.phase.m] else []
    else if e.Settle? && e.idle && p.phase == Settling(x) && At(p, x).status == Done && !HasMessage(At(p, x)) then
      [Message(x, Tick)]
    else []
  }

  // What the entries of the log say x took out of its mailbox.
  function PopsOf(log: seq<Taken>, x: nat): seq<Message> {
    if log == [] then [] else
    PopsOf(log[..|log| - 1], x) + (if log[|log| - 1].x == x && log[|log| - 1].way == Popped then [log[|log| - 1].m] else [])
  }

  // All that was delivered to x since it was made, oldest first ...
  function Delivered(p: Pool, events: seq<Event>, x: nat): seq<Message>
    decreases |events|
  {
    if events == [] then At(p, x).inbox
    else
      var front := events[..|events| - 1];
      if Gone(At(Run(p, events), x)) then []
      else Delivered(p, front, x) + Arrival(Run(p, front), events[|events| - 1], x)
  }

  // ... and all it took.
  function Fetched(p: Pool, events: seq<Event>, x: nat): seq<Message>
    decreases |events|
  {
    if events == [] then []
    else
      var front := events[..|events| - 1];
      if Gone(At(Run(p, events), x)) then []
      else Fetched(p, front, x) + PopsOf(NewIn(Run(p, front), Run(p, events)), x)
  }

  function NewIn(p: Pool, t: Pool): seq<Taken> {
    if p.log <= t.log then t.log[|p.log|..] else []
  }

  lemma NothingNew(p: Pool, t: Pool)
    requires t.log == p.log
    ensures NewIn(p, t) == []
  {
  }

  lemma OneNew(p: Pool, t: Pool, g: Taken)
    requires t.log == p.log + [g]
    ensures NewIn(p, t) == [g] && forall x :: PopsOf([g], x) == if g.x == x && g.way == Popped then [g.m] else []
  {
    assert [g][..0] == [];
    forall x ensures PopsOf([g], x) == if g.x == x && g.way == Popped then [g.m] else [] {
      assert PopsOf([], x) == [];
    }
  }

  // What the step takes out at the front and puts in at the back.
  ghost predicate InOrder(p: Pool, t: Pool, e: Event, x: nat) {
    PopsOf(NewIn(p, t), x) + At(t, x).inbox == At(p, x).inbox + Arrival(p, e, x)
  }

  lemma Untouched(p: Pool, t: Pool, e: Event, x: nat)
    requires t.log == p.log && At(t, x).inbox == At(p, x).inbox && Arrival(p, e, x) == []
    ensures InOrder(p, t, e, x)
  {
    NothingNew(p, t);
  }

  lemma Appended(p: Pool, t: Pool, e: Event, x: nat)
    requires t.log == p.log && At(t, x).inbox == At(p, x).inbox + Arrival(p, e, x)
    ensures InOrder(p, t, e, x)
  {
    NothingNew(p, t);
  }

  lemma GiveLogs(p: Pool, x: nat, slot: Slot, way: Way)
    ensures Give(p, x, slot, way).s == p.s
    ensures Give(p, x, slot, way).log == if slot == Empty then p.log else p.log + [Taken(x, slot.m, way)]
  {
  }

  lemma ReceiveOrder(p: Pool, y: nat, x: nat)
    ensures InOrder(p, ServiceStep(p, Receive(y)), Receive(y), x)
  {
    hide Give, PopsOf;
    var e, t, v := Receive(y), ServiceStep(p, Receive(y)), At(p, y);
    if y < |p.s| && v.status == Running && v.bounce != Empty {
      GiveLogs(Put(p, y, v.(bounce := Empty)), y, v.bounce, Bounced);
      OneNew(p, t, Taken(y, v.bounce.m, Bounced));
    } else if y < |p.s| && v.status == Running && v.inbox != [] {
      GiveLogs(Put(p, y, v.(inbox := v.inbox[1..])), y, Full(v.inbox[0]), Popped);
      OneNew(p, t, Taken(y, v.inbox[0], Popped));
      assert [v.inbox[0]] + v.inbox[1..] == v.inbox;
    } else {
      Untouched(p, t, e, x);
    }
  }

  lemma ReadOrder(p: Pool, y: nat, x: nat)
    ensures InOrder(p, ServiceStep(p, Read(y)), Read(y), x)
  {
    hide Give, PopsOf;
    var e, t, v := Read(y), ServiceStep(p, Read(y)), At(p, y);
    if y < |p.s| && v.status == Running && v.receipt != NoReceipt {
      GiveLogs(Put(p, y, v.(receipt := NoReceipt, bounce := Empty, waits := false)), y, v.bounce, WithReceipt);
      if v.bounce == Empty { Untouched(p, t, e, x); } else { OneNew(p, t, Taken(y, v.bounce.m, WithReceipt)); }
    } else {
      Untouched(p, t, e, x);
    }
  }

  lemma ServiceOrder(p: Pool, e: Event, x: nat)
    requires !Scheduler(e) && !Gone(At(ServiceStep(p, e), x))
    ensures InOrder(p, ServiceStep(p, e), e, x)
  {
    hide InOrder, PopsOf, Bag;
    if e.Receive? {
      ReceiveOrder(p, e.x, x);
    } else if e.Read? {
      ReadOrder(p, e.x, x);
    } else {
      Untouched(p, ServiceStep(p, e), e, x);
    }
  }

  lemma WriteMoves(p: Pool, x: nat, receipt: Receipt, bounce: Slot, y: nat)
    requires x < |p.s|
    ensures var t := WriteReceipt(p, x, receipt, bounce);
      t.log == p.log && At(t, y).inbox == At(p, y).inbox && At(t, y).status == At(p, y).status
  {
  }

  lemma DeliverOrder(p: Pool, slot: nat, x: nat)
    requires p.phase.Routing? && p.phase.x < |p.s| && p.s[p.phase.x].status != Dead && p.phase.m.kind.To?
    ensures var t := Deliver(p, p.phase.x, p.phase.m, p.phase.m.kind.to);
      t.log == p.log && At(t, x).inbox == At(p, x).inbox + Arrival(p, Push(slot), x)
  {
    hide WriteReceipt;
    var Routing(y, m) := p.phase;
    var to := m.kind.to;
    var v := At(p, to);
    WriteMoves(p, y, RError, Full(m), x);
    WriteMoves(p, y, RBlock, Full(m), x);
    WriteMoves(Put(p, to, v.(inbox := v.inbox + [m])), y, RDone, Empty, x);
  }

  lemma ScheduleOrder(p: Pool, y: nat, m: Message, slot: nat, x: nat)
    requires y < |p.s| && !m.kind.To? && !Gone(At(ScheduleMessage(p, y, m, slot), x))
    ensures var t := ScheduleMessage(p, y, m, slot); t.log == p.log && At(t, x).inbox == At(p, x).inbox
  {
    hide WriteReceipt, Bag;
    WriteMoves(p, y, RError, Full(m), x);
    if m.kind.New? && slot < |p.s| { WriteMoves(Put(p, slot, NOBODY.(status := Uninitialized)), y, RResponse, Full(m), x); }
    if m.kind.Delete? {
      var q := if m.kind.id < |p.s| && m.kind.id != y then Free1(p, m.kind.id) else p;
      WriteMoves(q.(deleted := q.deleted + multiset{m}), y, RDone, Empty, x);
    }
  }

  lemma PushOrder(p: Pool, slot: nat, x: nat)
    requires PhaseFits(p) && !Gone(At(PushStep(p, slot), x))
    ensures InOrder(p, PushStep(p, slot), Push(slot), x)
  {
    hide InOrder, PopsOf, Deliver, ScheduleMessage, Bag;
    var e, t := Push(slot), PushStep(p, slot);
    if p.phase.Routing? {
      var Routing(y, m) := p.phase;
      if p.s[y].status == Dead {
        Appended(p, t, e, x);
      } else if m.kind.To? {
        DeliverOrder(p, slot, x);
        Appended(p, t, e, x);
      } else {
        ScheduleOrder(p, y, m, slot, x);
        Untouched(p, t, e, x);
      }
    } else {
      Untouched(p, t, e, x);
    }
  }

  lemma TakeOrder(p: Pool, y: nat, x: nat)
    ensures InOrder(p, TakeStep(p, y), Take(y), x)
  {
    hide InOrder, PopsOf;
    Untouched(p, TakeStep(p, y), Take(y), x);
  }

  lemma CheckOrder(p: Pool, x: nat)
    ensures InOrder(p, CheckStep(p), Check, x)
  {
    hide InOrder, PopsOf;
    Untouched(p, CheckStep(p), Check, x);
  }

  lemma SettleOrder(p: Pool, idle: bool, x: nat)
    ensures InOrder(p, SettleStep(p, idle), Settle(idle), x)
  {
    hide InOrder, PopsOf;
    Appended(p, SettleStep(p, idle), Settle(idle), x);
  }

  lemma StepOrder(p: Pool, e: Event, x: nat)
    requires PhaseFits(p) && !Gone(At(Step(p, e), x))
    ensures InOrder(p, Step(p, e), e, x)
  {
    hide InOrder, PopsOf, ServiceStep, PushStep, TakeStep, CheckStep, SettleStep, PhaseFits, Gone;
    match e {
      case Take(y) => TakeOrder(p, y, x);
      case Push(slot) => PushOrder(p, slot, x);
      case Check => CheckOrder(p, x);
      case Settle(idle) => SettleOrder(p, idle, x);
      case _ => ServiceOrder(p, e, x);
    }
  }

  // A service that is not set up has no mail.
  lemma GoneIsEmpty(p: Pool, x: nat)
    requires Inv(p) && Gone(At(p, x))
    ensures At(p, x).inbox == []
  {
    hide Conserved;
    if x < |p.s| { assert Shape(x, p.s[x]); }
  }

  // Over every run: what a service has taken from its mailbox, and then what
  // is in it, is what was delivered to it, in this order.
  lemma {:induction false} MailboxIsFifo(p: Pool, events: seq<Event>, x: nat)
    requires Begins(p) && AllReady(p, events) && !Gone(At(Run(p, events), x))
    ensures Fetched(p, events, x) + At(Run(p, events), x).inbox == Delivered(p, events, x)
    decreases |events|
  {
    hide Inv, Begins, Step, Ready, Arrival, PopsOf, PhaseFits, Gone;
    if events != [] {
      var front, e := events[..|events| - 1], events[|events| - 1];
      assert events == front + [e];
      RunSnoc(p, front, e);
      BeginInv(p);
      RunKeeps(p, front);
      var q, t := Run(p, front), Run(p, events);
      PhaseIs(q);
      StepOrder(q, e, x);
      if Gone(At(q, x)) {
        GoneIsEmpty(q, x);
        NothingBefore(p, front, x);
      } else {
        MailboxIsFifo(p, front, x);
      }
      var a, b, c := Fetched(p, front, x), PopsOf(NewIn(q, t), x), At(t, x).inbox;
      assert a + b + c == a + (b + c);
    }
  }

  lemma NothingBefore(p: Pool, events: seq<Event>, x: nat)
    requires Gone(At(Run(p, events), x)) && At(Run(p, events), x).inbox == []
    ensures Fetched(p, events, x) == [] && Delivered(p, events, x) == []
  {
  }

  // ------------------------------------------------------------ the log is true

  function Messages(log: seq<Taken>): multiset<Message> {
    if log == [] then multiset{} else Messages(log[..|log| - 1]) + multiset{log[|log| - 1].m}
  }

  lemma MessagesNext(log: seq<Taken>, g: Taken)
    ensures Messages(log + [g]) == Messages(log) + multiset{g.m}
  {
    assert (log + [g])[..|log|] == log;
  }

  lemma GiveIsLogged(p: Pool, x: nat, slot: Slot, way: Way)
    requires p.taken == Messages(p.log)
    ensures Give(p, x, slot, way).taken == Messages(Give(p, x, slot, way).log)
  {
    if slot != Empty { MessagesNext(p.log, Taken(x, slot.m, way)); }
  }

  lemma StepIsLogged(p: Pool, e: Event)
    requires p.taken == Messages(p.log)
    ensures Step(p, e).taken == Messages(Step(p, e).log)
  {
    hide Messages, Give, PushStep, Bag;
    match e {
      case Receive(x) =>
        var v := At(p, x);
        GiveIsLogged(Put(p, x, v.(bounce := Empty)), x, v.bounce, Bounced);
        if v.inbox != [] { GiveIsLogged(Put(p, x, v.(inbox := v.inbox[1..])), x, Full(v.inbox[0]), Popped); }
      case Read(x) =>
        var v := At(p, x);
        GiveIsLogged(Put(p, x, v.(receipt := NoReceipt, bounce := Empty, waits := false)), x, v.bounce, WithReceipt);
      case Push(slot) => PushTakesNothing(p, slot);
      case _ =>
    }
  }

  lemma PushTakesNothing(p: Pool, slot: nat)
    ensures PushStep(p, slot).taken == p.taken && PushStep(p, slot).log == p.log
  {
    hide WriteReceipt, Deliver, ScheduleMessage;
    if p.phase.Routing? && p.phase.x < |p.s| && p.s[p.phase.x].status != Dead {
      var Routing(x, m) := p.phase;
      if m.kind.To? { DeliverTakesNothing(p, x, m, m.kind.to); } else { ScheduleTakesNothing(p, x, m, slot); }
    }
  }

  lemma WriteTakesNothing(p: Pool, x: nat, receipt: Receipt, bounce: Slot)
    requires x < |p.s|
    ensures WriteReceipt(p, x, receipt, bounce).taken == p.taken && WriteReceipt(p, x, receipt, bounce).log == p.log
  {
  }

  lemma DeliverTakesNothing(p: Pool, x: nat, m: Message, to: nat)
    requires x < |p.s|
    ensures Deliver(p, x, m, to).taken == p.taken && Deliver(p, x, m, to).log == p.log
  {
    hide WriteReceipt;
    var v := At(p, to);
    WriteTakesNothing(p, x, RError, Full(m));
    WriteTakesNothing(p, x, RBlock, Full(m));
    WriteTakesNothing(Put(p, to, v.(inbox := v.inbox + [m])), x, RDone, Empty);
  }

  lemma ScheduleTakesNothing(p: Pool, x: nat, m: Message, slot: nat)
    requires x < |p.s|
    ensures ScheduleMessage(p, x, m, slot).taken == p.taken && ScheduleMessage(p, x, m, slot).log == p.log
  {
    hide WriteReceipt;
    WriteTakesNothing(p, x, RError, Full(m));
    if m.kind.New? && slot < |p.s| { WriteTakesNothing(Put(p, slot, NOBODY.(status := Uninitialized)), x, RResponse, Full(m)); }
    if m.kind.Delete? {
      var q := if m.kind.id < |p.s| && m.kind.id != x then Free1(p, m.kind.id) else p;
      WriteTakesNothing(q.(deleted := q.deleted + multiset{m}), x, RDone, Empty);
    }
  }

  // The log has every message that was given to Lua, as often as it was.
  lemma {:induction false} TakenIsLogged(p: Pool, events: seq<Event>)
    requires p.taken == Messages(p.log)
    ensures Run(p, events).taken == Messages(Run(p, events).log)
    decreases |events|
  {
    hide Step, Messages;
    if events != [] {
      StepIsLogged(p, events[0]);
      TakenIsLogged(Step(p, events[0]), events[1..]);
    }
  }
}
