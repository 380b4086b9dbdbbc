// What holds of messages and receipts over every run.
module MailTheorem {
  import opened Mail

  predicate AllReady(p: Pool, events: seq<Event>)
    decreases |events|
  {
    events != [] ==> Ready(p, events[0]) && AllReady(Step(p, events[0]), events[1..])
  }

  lemma StepKeeps(p: Pool, e: Event)
    requires Inv(p) && Ready(p, e)
    ensures Inv(Step(p, e))
  {
    hide Inv, Ready;
    match e {
      case Take(x) => TakeKeeps(p, x);
      case Push(slot) => PushKeeps(p, slot);
      case Check => CheckKeeps(p);
      case Settle(idle) => SettleKeeps(p, idle);
      case _ => ServiceKeeps(p, e);
    }
  }

  lemma {:induction false} RunKeeps(p: Pool, events: seq<Event>)
    requires Inv(p) && AllReady(p, events)
    ensures Inv(Run(p, events))
    decreases |events|
  {
    hide Inv, Ready, Step;
    if events != [] {
      StepKeeps(p, events[0]);
      RunKeeps(Step(p, events[0]), events[1..]);
    }
  }

  // Before the workers start: empty slots, and root with what bootstrap sent.
  predicate Begins(p: Pool) {
    && p.capacity > 0 && p.phase == Free && ROOT < |p.s| && p.overwritten == 0
    && p.taken == multiset{} && p.log == [] && p.deleted == multiset{} && p.lost == multiset{}
    && p.s[ROOT] == NOBODY.(status := Schedule, inbox := p.s[ROOT].inbox)
    && (forall x | 0 <= x < |p.s| && x != ROOT :: p.s[x] == NOBODY)
    && p.posted == multiset(p.s[ROOT].inbox)
  }

  lemma {:induction false} NothingHeld(s: seq<Service>, m: Message)
    requires forall x | 0 <= x < |s| :: s[x] == NOBODY
    ensures HeldByAll(s, m) == 0
  {
    if s != [] { NothingHeld(s[1..], m); }
  }

  lemma BeginInv(p: Pool)
    requires Begins(p)
    ensures Inv(p)
  {
    forall m ensures Places(p, m) == p.posted[m] {
      var none := p.s[ROOT := NOBODY];
      NothingHeld(none, m);
      Replace(p.s, ROOT, NOBODY, m);
    }
  }

  // Every message posted is in exactly one place: a mailbox, an out slot, a
  // bounce slot, the scheduler's hands, given to Lua, or freed. Only a death
  // signal can be lost.
  lemma MessagesAreConserved(p: Pool, events: seq<Event>, m: Message)
    requires Begins(p) && AllReady(p, events)
    ensures var t := Run(p, events);
      && t.posted[m] == HeldByAll(t.s, m) + InHand(t.phase, m) + t.taken[m] + t.deleted[m] + t.lost[m]
      && (m.kind != Signal ==> t.lost[m] == 0)
  {
    hide Fits, Shape, ReceiptDue, IdleMeansIdle, Run, AllReady;
    BeginInv(p);
    RunKeeps(p, events);
    var t := Run(p, events);
    assert Places(t, m) == t.posted[m];
  }

  // No service is idle with a message or a receipt pending, but between a
  // delivery and its check_message_to.
  lemma NeverIdleWithMail(p: Pool, events: seq<Event>, x: nat)
    requires Begins(p) && AllReady(p, events) && x < |Run(p, events).s|
    ensures var t := Run(p, events);
      t.s[x].status == Idle && (t.phase == Free || t.phase.Routing? || t.phase.Settling?) ==>
        t.s[x].inbox == [] && t.s[x].receipt == NoReceipt
  {
    hide Conserved, Shape, ReceiptDue, Run, AllReady;
    BeginInv(p);
    RunKeeps(p, events);
    assert IdleMeansIdle(Run(p, events), x);
  }

  // A service that posted finds its out slot empty and a receipt when it is
  // resumed.
  lemma ResumedWithReceipt(p: Pool, events: seq<Event>, x: nat)
    requires Begins(p) && AllReady(p, events) && x < |Run(p, events).s|
    ensures var v := Run(p, events).s[x];
      v.status == Schedule ==> v.out == Empty && (v.waits ==> v.receipt != NoReceipt)
  {
    hide Conserved, Run, AllReady;
    BeginInv(p);
    RunKeeps(p, events);
    var t := Run(p, events);
    assert Shape(x, t.s[x]) && ReceiptDue(t, x);
  }

  // The way the Lua layer uses posting: the last receipt is read first.
  predicate Polite(p: Pool, e: Event) {
    e.Post? ==> At(p, e.x).receipt == NoReceipt
  }

  predicate AllPolite(p: Pool, events: seq<Event>)
    decreases |events|
  {
    events != [] ==> Polite(p, events[0]) && AllPolite(Step(p, events[0]), events[1..])
  }

  // No receipt was replaced, and none stands where one is due.
  ghost predicate OneReceipt(p: Pool) {
    && p.overwritten == 0
    && forall x | 0 <= x < |p.s| && p.s[x].status != Dead && (p.s[x].out != Empty || (p.phase.Routing? && p.phase.x == x)) ::
        p.s[x].receipt == NoReceipt
  }

  lemma OneChange(p: Pool, t: Pool, x: nat, v: Service)
    requires OneReceipt(p) && x < |p.s| && t.s == p.s[x := v] && t.phase == p.phase && t.overwritten == p.overwritten
    requires v.status != Dead && (v.out != Empty || (p.phase.Routing? && p.phase.x == x)) ==> v.receipt == NoReceipt
    ensures OneReceipt(t)
  {
  }

  lemma ServiceReceipt(p: Pool, e: Event)
    requires Inv(p) && Polite(p, e) && OneReceipt(p) && !Scheduler(e)
    ensures OneReceipt(ServiceStep(p, e))
  {
    hide Inv, HasMessage;
    var x, t := e.x, ServiceStep(p, e);
    if x < |p.s| && t != p {
      if !e.Close? { NotInHandOnce(p, x); }
      assert t.s == p.s[x := t.s[x]];
      OneChange(p, t, x, t.s[x]);
    }
  }

  // Before a service has run to its end, an outgoing message has no receipt.
  lemma NotInHandOnce(p: Pool, x: nat)
    requires Inv(p) && x < |p.s|
    ensures p.s[x].status != Done && p.s[x].status != Dead ==> !Busy(p.phase, x)
  {
    hide Conserved;
  }

  lemma TakeReceipt(p: Pool, x: nat)
    requires Inv(p) && OneReceipt(p)
    ensures OneReceipt(TakeStep(p, x))
  {
    hide Conserved, HasMessage;
  }

  lemma WriteOnce(p: Pool, x: nat, receipt: Receipt, bounce: Slot, phase: Phase)
    requires OneReceipt(p) && x < |p.s| && p.s[x].receipt == NoReceipt && p.s[x].out == Empty && !phase.Routing?
    requires p.phase.Routing? ==> p.phase.x == x
    ensures OneReceipt(WriteReceipt(p, x, receipt, bounce).(phase := phase))
  {
  }

  lemma DeliverReceipt(p: Pool, x: nat, m: Message, to: nat)
    requires OneReceipt(p) && p.phase == Routing(x, m) && x < |p.s| && p.s[x].status == Done && p.s[x].out == Empty
    ensures OneReceipt(Deliver(p, x, m, to))
  {
    hide WriteReceipt;
    var v := At(p, to);
    if v.status != Absent && v.status != Dead && |v.inbox| < p.capacity {
      WriteOnce(Put(p, to, v.(inbox := v.inbox + [m])), x, RDone, Empty, Checking(x, to));
    } else {
      WriteOnce(p, x, RError, Full(m), Checking(x, to));
      WriteOnce(p, x, RBlock, Full(m), Checking(x, to));
    }
  }

  lemma ScheduleReceipt(p: Pool, x: nat, m: Message, slot: nat)
    requires OneReceipt(p) && p.phase == Routing(x, m) && x < |p.s| && p.s[x].status == Done && p.s[x].out == Empty
    ensures OneReceipt(ScheduleMessage(p, x, m, slot).(phase := Settling(x)))
  {
    hide WriteReceipt;
    if x == ROOT && m.kind.New? && slot < |p.s| && slot != 0 && p.s[slot].status == Absent {
      WriteOnce(Put(p, slot, NOBODY.(status := Uninitialized)), x, RResponse, Full(m), Settling(x));
    } else if x == ROOT && m.kind.Delete? {
      var q := if m.kind.id < |p.s| && m.kind.id != x then Free1(p, m.kind.id) else p;
      WriteOnce(q.(deleted := q.deleted + multiset{m}), x, RDone, Empty, Settling(x));
    } else {
      WriteOnce(p, x, RError, Full(m), Settling(x));
    }
  }

  lemma PushReceipt(p: Pool, slot: nat)
    requires Inv(p) && OneReceipt(p)
    ensures OneReceipt(PushStep(p, slot))
  {
    hide Conserved, HasMessage, WriteReceipt, Deliver, ScheduleMessage;
    if p.phase.Routing? {
      var Routing(x, m) := p.phase;
      if p.s[x].status == Done {
        if m.kind.To? { DeliverReceipt(p, x, m, m.kind.to); } else { ScheduleReceipt(p, x, m, slot); }
      }
    }
  }

  lemma CheckReceipt(p: Pool)
    requires Inv(p) && OneReceipt(p)
    ensures OneReceipt(CheckStep(p))
  {
    hide Conserved, HasMessage;
  }

  lemma SettleReceipt(p: Pool, idle: bool)
    requires Inv(p) && OneReceipt(p)
    ensures OneReceipt(SettleStep(p, idle))
  {
    hide Conserved, HasMessage;
  }

  // Exactly one receipt answers each message: none is ever replaced unread.
  lemma {:induction false} ReceiptsAreRead(p: Pool, events: seq<Event>)
    requires Inv(p) && OneReceipt(p) && AllReady(p, events) && AllPolite(p, events)
    ensures OneReceipt(Run(p, events))
    decreases |events|
  {
    hide Inv, OneReceipt, Ready, Polite;
    if events != [] {
      var e := events[0];
      StepKeeps(p, e);
      match e {
        case Take(x) => TakeReceipt(p, x);
        case Push(slot) => PushReceipt(p, slot);
        case Check => CheckReceipt(p);
        case Settle(idle) => SettleReceipt(p, idle);
        case _ => ServiceReceipt(p, e);
      }
      ReceiptsAreRead(Step(p, e), events[1..]);
    }
  }

  // ------------------------------------------------------------ lost signals

  // The report of a death that finds root's mailbox full, or no root.
  predicate Unheard(p: Pool, e: Event, m: Message) {
    && e.Push? && p.phase.Routing? && p.phase.m == m && p.phase.x < |p.s| && p.s[p.phase.x].status == Dead
    && (var root := At(p, ROOT); root.status == Absent || root.status == Dead || |root.inbox| >= p.capacity)
  }

  // How many of the run's reports of m were.
  function Losses(p: Pool, events: seq<Event>, m: Message): nat
    decreases |events|
  {
    if events == [] then 0 else (if Unheard(p, events[0], m) then 1 else 0) + Losses(Step(p, events[0]), events[1..], m)
  }

  lemma ServiceLoses(p: Pool, e: Event)
    requires !Scheduler(e)
    ensures ServiceStep(p, e).lost == p.lost
  {
    hide HasMessage;
  }

  lemma WriteLoses(p: Pool, x: nat, receipt: Receipt, bounce: Slot)
    requires x < |p.s|
    ensures WriteReceipt(p, x, receipt, bounce).lost == p.lost
  {
  }

  lemma PushLoses(p: Pool, slot: nat, m: Message)
    ensures PushStep(p, slot).lost[m] == p.lost[m] + if Unheard(p, Push(slot), m) then 1 else 0
  {
    hide WriteReceipt, Deliver, ScheduleMessage;
    if p.phase.Routing? && p.phase.x < |p.s| && p.s[p.phase.x].status != Dead {
      var Routing(x, n) := p.phase;
      if n.kind.To? { DeliverLoses(p, x, n, n.kind.to); } else { ScheduleLoses(p, x, n, slot); }
    }
  }

  lemma DeliverLoses(p: Pool, x: nat, m: Message, to: nat)
    requires x < |p.s|
    ensures Deliver(p, x, m, to).lost == p.lost
  {
    hide WriteReceipt;
    var v := At(p, to);
    WriteLoses(p, x, RError, Full(m));
    WriteLoses(p, x, RBlock, Full(m));
    WriteLoses(Put(p, to, v.(inbox := v.inbox + [m])), x, RDone, Empty);
  }

  lemma ScheduleLoses(p: Pool, x: nat, m: Message, slot: nat)
    requires x < |p.s|
    ensures ScheduleMessage(p, x, m, slot).lost == p.lost
  {
    hide WriteReceipt;
    WriteLoses(p, x, RError, Full(m));
    if m.kind.New? && slot < |p.s| { WriteLoses(Put(p, slot, NOBODY.(status := Uninitialized)), x, RResponse, Full(m)); }
    if m.kind.Delete? {
      var q := if m.kind.id < |p.s| && m.kind.id != x then Free1(p, m.kind.id) else p;
      WriteLoses(q.(deleted := q.deleted + multiset{m}), x, RDone, Empty);
    }
  }

  lemma StepLoses(p: Pool, e: Event, m: Message)
    ensures Step(p, e).lost[m] == p.lost[m] + if Unheard(p, e, m) then 1 else 0
  {
    hide ServiceStep, PushStep, HasMessage;
    match e {
      case Take(_) =>
      case Push(slot) => PushLoses(p, slot, m);
      case Check =>
      case Settle(_) =>
      case _ => ServiceLoses(p, e);
    }
  }

  // Over every run m is lost exactly as often as a report of it found root's
  // mailbox full, or no living root.
  lemma {:induction false} LostIffUnheard(p: Pool, events: seq<Event>, m: Message)
    ensures Run(p, events).lost[m] == p.lost[m] + Losses(p, events, m)
    decreases |events|
  {
    hide Step, Unheard;
    if events != [] {
      StepLoses(p, events[0], m);
      LostIffUnheard(Step(p, events[0]), events[1..], m);
    }
  }

  // -------------------------------------------------------- what receipts mean

  // What the receipt says of message m, which the scheduler had in hand in p
  // and has dealt with in t. To a service: DONE, it was appended to the mailbox
  // of a living recipient, which had room; BLOCK, it came back from a full one;
  // ERROR, it came back, for there was no living recipient. To the scheduler:
  // RESPONSE, root has a new service; DONE, root has deleted one; ERROR, the
  // wish came back, and no service was made or deleted.
  ghost predicate Answered(p: Pool, t: Pool, x: nat, m: Message, receipt: Receipt)
    requires x < |p.s| == |t.s|
  {
    match m.kind
    case To(to) =>
      var before, after := At(p, to), At(t, to);
      var lives := before.status != Absent && before.status != Dead;
      (match receipt
       case RDone => lives && |before.inbox| < p.capacity && after.inbox == before.inbox + [m] && t.s[x].bounce == Empty
       case RBlock => lives && |before.inbox| >= p.capacity && after.inbox == before.inbox && t.s[x].bounce == Full(m)
       case RError => !lives && after.inbox == before.inbox && t.s[x].bounce == Full(m)
       case _ => false)
    case _ =>
      (match receipt
       case RDone =>
         x == ROOT && m.kind.Delete? && (m.kind.id == x || At(t, m.kind.id).status == Absent) && t.s[x].bounce == Empty
       case RResponse =>
         x == ROOT && m.kind.New? && t.s[x].bounce == Full(m) &&
         exists y: nat :: At(p, y).status == Absent && At(t, y).status == Uninitialized
       case RError =>
         !(x == ROOT && m.kind.Delete?) && t.s[x].bounce == Full(m) &&
         forall y: nat :: At(t, y).status == At(p, y).status
       case _ => false)
  }

  // The k-th event of the run gave x the receipt that it has at the end, and
  // it stood ever since.
  ghost predicate Wrote(p: Pool, events: seq<Event>, k: nat, x: nat) {
    && k < |events| && events[k].Push?
    && var q, u, t := Run(p, events[..k]), Run(p, events[..k + 1]), Run(p, events);
      && q.phase.Routing? && q.phase.x == x < |q.s| == |u.s| == |t.s|
      && Answered(q, u, x, q.phase.m, t.s[x].receipt)
      && (t.s[x].bounce == Empty || t.s[x].bounce == u.s[x].bounce)
  }

  lemma {:induction false} RunSnoc(p: Pool, events: seq<Event>, e: Event)
    ensures Run(p, events + [e]) == Step(Run(p, events), e)
    ensures AllReady(p, events + [e]) <==> AllReady(p, events) && Ready(Run(p, events), e)
    decreases |events|
  {
    hide Step, Ready;
    if events == [] {
      assert events + [e] == [e] && [e][1..] == [];
    } else {
      assert (events + [e])[0] == events[0] && (events + [e])[1..] == events[1..] + [e];
      RunSnoc(Step(p, events[0]), events[1..], e);
    }
  }

  lemma Receipted(p: Pool, x: nat, receipt: Receipt, bounce: Slot)
    requires x < |p.s|
    ensures var t := WriteReceipt(p, x, receipt, bounce);
      t.s == p.s[x := p.s[x].(receipt := receipt, bounce := bounce)] && t.phase == p.phase
  {
  }

  lemma DeliverAnswers(p: Pool, x: nat, m: Message, to: nat)
    requires x < |p.s| && m.kind == To(to)
    ensures var t := Deliver(p, x, m, to); |t.s| == |p.s| && Answered(p, t, x, m, t.s[x].receipt)
    ensures forall y | 0 <= y < |p.s| && y != x :: Deliver(p, x, m, to).s[y] == p.s[y].(inbox := Deliver(p, x, m, to).s[y].inbox)
  {
    hide WriteReceipt;
    var v := At(p, to);
    Receipted(p, x, RError, Full(m));
    Receipted(p, x, RBlock, Full(m));
    Receipted(Put(p, to, v.(inbox := v.inbox + [m])), x, RDone, Empty);
  }

  lemma NewAnswers(p: Pool, x: nat, m: Message, slot: nat)
    requires x < |p.s| && m.kind.New? && x == ROOT && slot < |p.s| && p.s[slot].status == Absent && p.s[x].status == Done
    ensures var t := WriteReceipt(Put(p, slot, NOBODY.(status := Uninitialized)), x, RResponse, Full(m));
      && |t.s| == |p.s| && Answered(p, t, x, m, t.s[x].receipt)
      && forall y | 0 <= y < |p.s| && y != x :: t.s[y] == p.s[y] || t.s[y].receipt == NoReceipt
  {
    hide WriteReceipt;
    var q := Put(p, slot, NOBODY.(status := Uninitialized));
    Receipted(q, x, RResponse, Full(m));
    assert At(WriteReceipt(q, x, RResponse, Full(m)), slot).status == Uninitialized;
  }

  lemma DeleteAnswers(p: Pool, x: nat, m: Message)
    requires x < |p.s| && m.kind.Delete? && x == ROOT
    ensures var q := if m.kind.id < |p.s| && m.kind.id != x then Free1(p, m.kind.id) else p;
      var t := WriteReceipt(q.(deleted := q.deleted + multiset{m}), x, RDone, Empty);
      && |t.s| == |p.s| && Answered(p, t, x, m, t.s[x].receipt)
      && forall y | 0 <= y < |p.s| && y != x :: t.s[y] == p.s[y] || t.s[y].receipt == NoReceipt
  {
    hide WriteReceipt, Bag;
    var q := if m.kind.id < |p.s| && m.kind.id != x then Free1(p, m.kind.id) else p;
    Receipted(q.(deleted := q.deleted + multiset{m}), x, RDone, Empty);
  }

  lemma ScheduleAnswers(p: Pool, x: nat, m: Message, slot: nat)
    requires x < |p.s| && !m.kind.To? && p.s[x].status == Done
    ensures var t := ScheduleMessage(p, x, m, slot);
      && |t.s| == |p.s| && Answered(p, t, x, m, t.s[x].receipt)
      && forall y | 0 <= y < |p.s| && y != x :: t.s[y] == p.s[y] || t.s[y].receipt == NoReceipt
  {
    hide WriteReceipt, Put, Free1;
    if x == ROOT && m.kind.New? && slot < |p.s| && slot != 0 && p.s[slot].status == Absent {
      NewAnswers(p, x, m, slot);
    } else if x == ROOT && m.kind.Delete? {
      DeleteAnswers(p, x, m);
    } else {
      Receipted(p, x, RError, Full(m));
    }
  }

  // Service x comes out of the step with the receipt it had, or with none.
  predicate Stands(p: Pool, t: Pool, x: nat)
    requires x < |p.s| == |t.s|
  {
    var v, w := p.s[x], t.s[x];
    w.receipt == NoReceipt || (w.receipt == v.receipt && (w.bounce == Empty || w.bounce == v.bounce))
  }

  // One service changes and keeps its receipt, or loses it.
  lemma PutStands(p: Pool, t: Pool, y: nat, v: Service, x: nat)
    requires x < |p.s| && y < |p.s| && t.s == p.s[y := v]
    requires v.receipt == NoReceipt || (v.receipt == p.s[y].receipt && (v.bounce == Empty || v.bounce == p.s[y].bounce))
    ensures |t.s| == |p.s| && Stands(p, t, x)
  {
  }

  lemma SameStands(p: Pool, t: Pool, x: nat)
    requires x < |p.s| && t.s == p.s
    ensures Stands(p, t, x)
  {
  }

  lemma ServiceStands(p: Pool, e: Event, x: nat)
    requires !Scheduler(e) && x < |p.s|
    ensures |ServiceStep(p, e).s| == |p.s| && Stands(p, ServiceStep(p, e), x)
  {
    hide Bag, Stands;
    var t := ServiceStep(p, e);
    if t.s == p.s {
      SameStands(p, t, x);
    } else if e.Close? {
      PutStands(p, t, e.x, NOBODY, x);
    } else {
      ServiceChanges(p, e);
      PutStands(p, t, e.x, t.s[e.x], x);
    }
  }

  lemma ServiceChanges(p: Pool, e: Event)
    requires !Scheduler(e) && !e.Close? && ServiceStep(p, e).s != p.s
    ensures e.x < |p.s| && e.x < |ServiceStep(p, e).s| && ServiceStep(p, e).s == p.s[e.x := ServiceStep(p, e).s[e.x]]
    ensures var v, w := p.s[e.x], ServiceStep(p, e).s[e.x];
      w.receipt == NoReceipt || (w.receipt == v.receipt && (w.bounce == Empty || w.bounce == v.bounce))
  {
    hide Bag;
    match e {
      case Start(_) =>
      case Post(_, _) =>
      case Receive(_) =>
      case Read(_) =>
      case Yield(_) =>
      case Exit(_) =>
      case Init(_) =>
    }
  }

  lemma PushStands(p: Pool, slot: nat, x: nat)
    requires x < |p.s| && !(p.phase.Routing? && p.phase.x == x && p.s[x].status != Dead)
    requires p.phase.Routing? && p.phase.x < |p.s| ==> p.s[p.phase.x].status == Dead || p.s[p.phase.x].status == Done
    ensures |PushStep(p, slot).s| == |p.s| && Stands(p, PushStep(p, slot), x)
  {
    hide Deliver, ScheduleMessage, Bag;
    if p.phase.Routing? && p.phase.x < |p.s| && p.s[p.phase.x].status != Dead {
      var Routing(y, n) := p.phase;
      if n.kind.To? { DeliverAnswers(p, y, n, n.kind.to); } else { ScheduleAnswers(p, y, n, slot); }
    }
  }

  lemma OtherStands(p: Pool, e: Event, x: nat)
    requires x < |p.s| && (e.Take? || e.Check? || e.Settle?)
    ensures |Step(p, e).s| == |p.s| && Stands(p, Step(p, e), x)
  {
    hide HasMessage;
    match e {
      case Take(_) =>
      case Check =>
      case Settle(_) =>
    }
  }

  lemma StepStands(p: Pool, e: Event, x: nat)
    requires PhaseFits(p) && x < |p.s| && !(e.Push? && p.phase.Routing? && p.phase.x == x && p.s[x].status != Dead)
    ensures |Step(p, e).s| == |p.s| && Stands(p, Step(p, e), x)
  {
    hide ServiceStep, PushStep, TakeStep, CheckStep, SettleStep, Stands;
    match e {
      case Take(_) => OtherStands(p, e, x);
      case Push(slot) => PushStands(p, slot, x);
      case Check => OtherStands(p, e, x);
      case Settle(_) => OtherStands(p, e, x);
      case _ => ServiceStands(p, e, x);
    }
  }

  lemma PushAnswers(p: Pool, slot: nat)
    requires PhaseFits(p) && p.phase.Routing? && p.s[p.phase.x].status != Dead
    ensures var t, x := PushStep(p, slot), p.phase.x; |t.s| == |p.s| && Answered(p, t, x, p.phase.m, t.s[x].receipt)
  {
    hide Deliver, ScheduleMessage;
    var Routing(x, m) := p.phase;
    if m.kind.To? {
      DeliverAnswers(p, x, m, m.kind.to);
    } else {
      ScheduleAnswers(p, x, m, slot);
      PhaseIgnored(p, x, m, slot);
    }
  }

  lemma PhaseIgnored(p: Pool, x: nat, m: Message, slot: nat)
    requires x < |p.s| && !m.kind.To?
    ensures ScheduleMessage(p, x, m, slot).(phase := Settling(x)).s == ScheduleMessage(p, x, m, slot).s
  {
  }

  lemma WroteLonger(p: Pool, events: seq<Event>, e: Event, k: nat, x: nat)
    requires Wrote(p, events, k, x) && |Run(p, events + [e]).s| == |Run(p, events).s|
    requires Stands(Run(p, events), Run(p, events + [e]), x) && Run(p, events + [e]).s[x].receipt != NoReceipt
    ensures Wrote(p, events + [e], k, x)
  {
    hide Answered, Run;
    assert (events + [e])[..k] == events[..k] && (events + [e])[..k + 1] == events[..k + 1];
  }

  lemma WroteLast(p: Pool, events: seq<Event>, e: Event, x: nat)
    requires e.Push? && Run(p, events + [e]) == Step(Run(p, events), e)
    requires var q, t := Run(p, events), Run(p, events + [e]);
      q.phase.Routing? && q.phase.x == x < |q.s| == |t.s| && Answered(q, t, x, q.phase.m, t.s[x].receipt)
    ensures Wrote(p, events + [e], |events|, x)
  {
    hide Answered, Run, Step;
    assert (events + [e])[..|events|] == events && (events + [e])[..|events| + 1] == events + [e];
  }

  // What the receipt says is what happened to the message: for every receipt
  // that a service has, at any moment of any run, some delivery gave it.
  lemma {:induction false} ReceiptTellsOutcome(p: Pool, events: seq<Event>, x: nat) returns (k: nat)
    requires Begins(p) && AllReady(p, events) && x < |Run(p, events).s| && Run(p, events).s[x].receipt != NoReceipt
    ensures Wrote(p, events, k, x)
    decreases |events|
  {
    hide Inv, Begins, Step, Ready, Answered, Stands, Wrote, PhaseFits;
    k := 0;
    BeginInv(p);
    if events == [] {
      FirstReceipt(p, x);
    } else {
      var front, e := events[..|events| - 1], events[|events| - 1];
      assert events == front + [e];
      RunSnoc(p, front, e);
      RunKeeps(p, front);
      var q := Run(p, front);
      PhaseIs(q);
      SameCount(q, e);
      if e.Push? && q.phase.Routing? && q.phase.x == x && q.s[x].status != Dead {
        PushAnswers(q, e.slot);
        PushIs(q, e);
        WroteLast(p, front, e, x);
        k := |front|;
      } else {
        StepStands(q, e, x);
        StandsIs(q, Step(q, e), x);
        k := ReceiptTellsOutcome(p, front, x);
        WroteLonger(p, front, e, k, x);
      }
    }
  }

  lemma PhaseIs(p: Pool)
    requires Inv(p)
    ensures PhaseFits(p)
  {
    hide Conserved, Shape;
  }

  lemma FirstReceipt(p: Pool, x: nat)
    requires Begins(p) && x < |p.s|
    ensures p.s[x].receipt == NoReceipt
  {
  }

  lemma PushIs(p: Pool, e: Event)
    requires e.Push?
    ensures Step(p, e) == PushStep(p, e.slot)
  {
  }

  lemma StandsIs(p: Pool, t: Pool, x: nat)
    requires x < |p.s| == |t.s| && Stands(p, t, x)
    ensures t.s[x].receipt != NoReceipt ==> p.s[x].receipt != NoReceipt
  {
  }

  lemma SameCount(p: Pool, e: Event)
    requires PhaseFits(p)
    ensures |Step(p, e).s| == |p.s|
  {
    hide Step, PhaseFits, Stands, Answered, PushStep;
    if p.s == [] {
      NobodyThere(p, e);
    } else if e.Push? && p.phase.Routing? {
      InRange(p);
      PushIs(p, e);
      if p.s[p.phase.x].status != Dead { PushAnswers(p, e.slot); } else { PushStands(p, e.slot, p.phase.x); }
    } else {
      StepStands(p, e, 0);
    }
  }

  lemma InRange(p: Pool)
    requires PhaseFits(p)
    ensures p.phase.Routing? ==> p.phase.x < |p.s|
  {
  }

  lemma NobodyThere(p: Pool, e: Event)
    requires PhaseFits(p) && p.s == []
    ensures Step(p, e).s == []
  {
    hide HasMessage, Bag;
    if Scheduler(e) { assert p.phase == Free || p.phase != Free; } else { NoService(p, e); }
  }

  lemma NoService(p: Pool, e: Event)
    requires !Scheduler(e) && p.s == []
    ensures ServiceStep(p, e).s == []
  {
    hide Bag;
  }

  lemma {:induction false} HeldBy(s: seq<Service>, x: nat, m: Message)
    requires x < |s|
    ensures HeldByAll(s, m) >= Held(s[x], m)
  {
    hide Held;
    if x > 0 { HeldBy(s[1..], x - 1, m); }
  }

  lemma {:induction false} HeldByTwo(s: seq<Service>, x: nat, y: nat, m: Message)
    requires x < |s| && y < |s| && x != y
    ensures HeldByAll(s, m) >= Held(s[x], m) + Held(s[y], m)
  {
    hide Held;
    if x > 0 && y > 0 {
      HeldByTwo(s[1..], x - 1, y - 1, m);
    } else if x == 0 {
      HeldBy(s[1..], y - 1, m);
    } else {
      HeldBy(s[1..], x - 1, m);
    }
  }

  // A message that came back, and was posted once, is in no mailbox, out slot
  // or hand and was neither given to Lua nor freed.
  lemma BouncedIsNowhereElse(p: Pool, events: seq<Event>, x: nat, m: Message, y: nat)
    requires Begins(p) && AllReady(p, events) && x < |Run(p, events).s| && y < |Run(p, events).s|
    requires Run(p, events).s[x].bounce == Full(m) && Run(p, events).posted[m] == 1
    ensures var t := Run(p, events);
      m !in t.s[y].inbox && t.s[y].out != Full(m) && (y != x ==> t.s[y].bounce != Full(m)) &&
      InHand(t.phase, m) == 0 && t.taken[m] == 0 && t.deleted[m] == 0
  {
    hide Begins, AllReady, Run, Inv;
    BeginInv(p);
    RunKeeps(p, events);
    var t := Run(p, events);
    BooksAt(t, m);
    HeldBy(t.s, x, m);
    if y != x { HeldByTwo(t.s, x, y, m); }
    InboxCount(t.s[y].inbox, m);
  }

  lemma InboxCount(inbox: seq<Message>, m: Message)
    ensures m in inbox <==> multiset(inbox)[m] > 0
  {
  }

  lemma BooksAt(p: Pool, m: Message)
    requires Inv(p)
    ensures HeldByAll(p.s, m) + InHand(p.phase, m) + p.taken[m] + p.deleted[m] + p.lost[m] == p.posted[m]
  {
    hide Fits, Shape, ReceiptDue, IdleMeansIdle;
    assert Places(p, m) == p.posted[m];
  }
}
