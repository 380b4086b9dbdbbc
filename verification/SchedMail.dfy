// Scheduler and mailboxes together: one run seen by both models. They agree in
// every state of it, and when every worker sleeps, nobody alive has a message
// or a receipt left to deal with.
module SchedMail {
  import opened SchedModel
  import opened SchedOwner
  import opened SchedDispatch
  import opened SchedEffect
  import opened SchedStrand
  import opened SchedStray
  import opened SchedTheorem
  import M = Mail
  import MailTheorem

  // ------------------------------------------------------------ two views

  // How Mail calls the status of service x.
  function View(m: Services, x: nat): M.Status {
    if x !in m then M.Absent else
    match m[x].status
    case Uninitialized => M.Uninitialized
    case Idle => M.Idle
    case Schedule => M.Schedule
    case Running => M.Running
    case Done => M.Done
    case Dead => M.Dead
  }

  // Both give service x the same status, and a death still to be reported is
  // in its outgoing slot.
  predicate Face(m: Services, v: M.Service, x: nat) {
    && v.status == View(m, x)
    && (x in m && m[x].signal ==> x != ROOT)
    && (x in m && x != ROOT && m[x].status == Dead ==> (m[x].signal <==> v.out != M.Empty))
  }

  // Two views of one moment: step 2 has a message in hand just when it has
  // delivered one and not settled the sender.
  ghost predicate Agree(s: Sys, p: M.Pool)
    requires s.Sys?
  {
    && (forall x: nat :: Face(s.services, M.At(p, x), x))
    && p.phase == if s.phase.Settle? && s.phase.jobs != [] then M.Settling(s.phase.jobs[0]) else M.Free
  }

  // --------------------------------------------------------------- one step

  // What step 2 does with the message of a living service.
  ghost predicate Routes(p: M.Pool, id: nat, message: SchedModel.Message, events: seq<M.Event>) {
    match M.At(p, id).out
    case Empty => message == NoMessage && events == [M.Take(id)]
    case Full(m) =>
      match m.kind
      case To(to) => message == SchedModel.To(to) && events == [M.Take(id), M.Push(0), M.Check]
      case New =>
        if id == ROOT && message.New? then message.id < |p.s| && events == [M.Take(id), M.Push(message.id)]
        else message == NoMessage && events == [M.Take(id), M.Push(0)]
      case Delete(x) =>
        events == [M.Take(id), M.Push(0)] && message == if id == ROOT then SchedModel.Delete(x) else NoMessage
      case _ => message == NoMessage && events == [M.Take(id), M.Push(0)]
  }

  predicate Uses(event: M.Event, id: nat) {
    (event.Post? || event.Receive? || event.Read?) && event.x == id
  }

  // The events of the mailboxes in a step of worker i, and what it finds there.
  ghost predicate Accounts(s: Sys, p: M.Pool, i: nat, e: Env, events: seq<M.Event>) {
    if !s.Sys? || i >= |s.ws| then events == []
    else if s.phase != Off && s.owner == i then
      if s.phase.Route? && s.phase.jobs != [] then
        var id := s.phase.jobs[0];
        if StatusOf(s.services, id) == Dead then
          (e.flag <==> |M.At(p, ROOT).inbox| >= p.capacity) && events == [M.Take(id), M.Push(0), M.Check]
        else Routes(p, id, e.message, events)
      else if s.phase.Settle? && s.phase.jobs != [] then
        exists idle :: events == [M.Settle(idle)] && (e.flag <==> M.HasMessage(M.At(p, s.phase.jobs[0])) || idle)
      else events == []
    else
      match s.ws[i].pc
      case Check(id) => events == if StatusOf(s.services, id) == Schedule then [M.Start(id)] else []
      case Run(id) =>
        (match e.event
         case Compute => forall event | event in events :: Uses(event, id)
         case Yield => events == [M.Yield(id)]
         case Exit => events == [M.Exit(id)]
         case Init(x, _) => events == [M.Init(x)]
         case Discard(x) => events == [M.Close(x)]
         case Bind(_) => events == [])
      case _ => events == []
  }

  // ------------------------------------------------------- runs of few events

  lemma OneEvent(p: M.Pool, a: M.Event)
    ensures M.Run(p, [a]) == M.Step(p, a)
  {
    hide M.Step;
    assert M.Run(M.Step(p, a), [a][1..]) == M.Step(p, a);
  }

  lemma TwoEvents(p: M.Pool, a: M.Event, b: M.Event)
    ensures M.Run(p, [a, b]) == M.Step(M.Step(p, a), b)
  {
    hide M.Step;
    assert [a, b][1..] == [b];
    OneEvent(M.Step(p, a), b);
  }

  lemma ThreeEvents(p: M.Pool, a: M.Event, b: M.Event, c: M.Event)
    ensures M.Run(p, [a, b, c]) == M.Step(M.Step(M.Step(p, a), b), c)
  {
    hide M.Step;
    assert [a, b, c][1..] == [b, c];
    TwoEvents(M.Step(p, a), b, c);
  }

  // ---------------------------------------------------- a service that runs

  // Nothing a service does with its mailbox shows in the other view.
  lemma UseHides(p: M.Pool, event: M.Event, id: nat, x: nat)
    requires Uses(event, id)
    ensures var q := M.Step(p, event);
      && q.phase == p.phase && q.capacity == p.capacity && |q.s| == |p.s| && M.At(q, x).status == M.At(p, x).status
      && (x != id || M.At(p, x).status != M.Running ==> M.At(q, x).out == M.At(p, x).out)
  {
  }

  lemma {:induction false} UsesHide(m: Services, p: M.Pool, events: seq<M.Event>, id: nat)
    requires (forall event | event in events :: Uses(event, id)) && View(m, id) == M.Running
    requires forall x: nat :: Face(m, M.At(p, x), x)
    ensures var q := M.Run(p, events); q.phase == p.phase && forall x: nat :: Face(m, M.At(q, x), x)
    decreases |events|
  {
    hide M.Step;
    if events != [] {
      var q := M.Step(p, events[0]);
      forall x: nat ensures Face(m, M.At(q, x), x) { assert Face(m, M.At(p, x), x); UseHides(p, events[0], id, x); }
      UseHides(p, events[0], id, 0);
      UsesHide(m, q, events[1..], id);
    }
  }

  // ------------------------------------------------------ one service changes

  ghost predicate AllFace(m: Services, p: M.Pool) {
    forall x: nat :: Face(m, M.At(p, x), x)
  }

  ghost predicate OnlyAt(m: Services, n: Services, p: M.Pool, q: M.Pool, x: nat) {
    && (forall y: nat | y != x :: (y in n <==> y in m) && (y in m ==> n[y] == m[y]))
    && (forall y: nat | y != x :: M.At(q, y).status == M.At(p, y).status && M.At(q, y).out == M.At(p, y).out)
  }

  lemma OneChanges(m: Services, n: Services, p: M.Pool, q: M.Pool, x: nat)
    requires AllFace(m, p) && OnlyAt(m, n, p, q, x) && Face(n, M.At(q, x), x)
    ensures AllFace(n, q)
  {
    hide M.At;
    forall y: nat ensures Face(n, M.At(q, y), y) {
      if y != x { assert Face(m, M.At(p, y), y); }
    }
  }

  lemma PutChanges(m: Services, p: M.Pool, x: nat, v: Service, w: M.Service)
    requires AllFace(m, p) && x in m && M.At(p, x).status != M.Absent && Face(m[x := v], w, x)
    ensures AllFace(m[x := v], M.Put(p, x, w))
  {
    OneChanges(m, m[x := v], p, M.Put(p, x, w), x);
  }

  lemma FreeChanges(m: Services, p: M.Pool, x: nat)
    requires AllFace(m, p) && x < |p.s|
    ensures AllFace(m - {x}, M.Free1(p, x))
  {
    OneChanges(m, m - {x}, p, M.Free1(p, x), x);
  }

  lemma OutOfRange(m: Services, p: M.Pool, x: nat)
    requires AllFace(m, p) && M.At(p, x).status == M.Absent
    ensures m - {x} == m && x !in m
  {
    assert Face(m, M.At(p, x), x);
  }

  // ------------------------------------------------------- workers' steps

  // A service is resumed, and ends its turn.
  lemma StartFaces(m: Services, p: M.Pool, id: nat)
    requires AllFace(m, p) && StatusOf(m, id) == Schedule
    ensures AllFace(SetStatus(m, id, Running), M.Step(p, M.Start(id))) && M.Step(p, M.Start(id)).phase == p.phase
  {
    assert Face(m, M.At(p, id), id);
    PutChanges(m, p, id, m[id].(status := Running), M.At(p, id).(status := M.Running));
  }

  lemma YieldFaces(m: Services, p: M.Pool, id: nat)
    requires AllFace(m, p) && StatusOf(m, id) == Running
    ensures AllFace(SetStatus(m, id, Done), M.Step(p, M.Yield(id))) && M.Step(p, M.Yield(id)).phase == p.phase
  {
    assert Face(m, M.At(p, id), id);
    PutChanges(m, p, id, m[id].(status := Done), M.At(p, id).(status := M.Done));
  }

  lemma ExitFaces(m: Services, p: M.Pool, id: nat)
    requires AllFace(m, p) && id in m && m[id].status == Running
    ensures var n := if id == ROOT then SetStatus(m, id, Dead) else m[id := m[id].(status := Dead, signal := true)];
      AllFace(n, M.Step(p, M.Exit(id))) && M.Step(p, M.Exit(id)).phase == p.phase
  {
    var v := M.At(p, id);
    assert Face(m, v, id);
    if id == ROOT {
      PutChanges(m, p, id, m[id].(status := Dead), v.(status := M.Dead));
    } else {
      var w := v.(status := M.Dead, out := M.Full(M.Message(id, M.Signal)));
      PutChanges(m, p, id, m[id].(status := Dead, signal := true), w);
      SameServices(m[id := m[id].(status := Dead, signal := true)], M.Put(p, id, w), M.Step(p, M.Exit(id)));
    }
  }

  lemma SameServices(m: Services, p: M.Pool, q: M.Pool)
    requires AllFace(m, p) && q.s == p.s
    ensures AllFace(m, q)
  {
    assert forall x: nat :: M.At(q, x) == M.At(p, x);
  }

  lemma InitFaces(m: Services, p: M.Pool, x: nat, b: int)
    requires AllFace(m, p) && x in m && m[x].status == Uninitialized
    ensures AllFace(SetStatus(SetBinding(m, x, b), x, Idle), M.Step(p, M.Init(x))) && M.Step(p, M.Init(x)).phase == p.phase
  {
    assert Face(m, M.At(p, x), x);
    var n := SetStatus(SetBinding(m, x, b), x, Idle);
    assert n == m[x := m[x].(binding := b, status := Idle)];
    PutChanges(m, p, x, m[x].(binding := b, status := Idle), M.At(p, x).(status := M.Idle));
  }

  lemma DiscardFaces(m: Services, p: M.Pool, x: nat)
    requires AllFace(m, p) && Removable(m, x) && StatusOf(m, ROOT) == Running
    requires M.Busy(p.phase, x) ==> x in m && m[x].status == Done
    ensures AllFace(m - {x}, M.Step(p, M.Close(x))) && M.Step(p, M.Close(x)).phase == p.phase
  {
    assert Face(m, M.At(p, x), x);
    if x in m && x != ROOT { FreeChanges(m, p, x); } else { OutOfRange(m, p, x); }
  }

  lemma BindFaces(m: Services, p: M.Pool, x: nat, b: int)
    requires AllFace(m, p)
    ensures AllFace(SetBinding(m, x, b), p)
  {
    forall y: nat ensures Face(SetBinding(m, x, b), M.At(p, y), y) { assert Face(m, M.At(p, y), y); }
  }

  lemma LossFaces(m: Services, p: M.Pool, x: nat, loss: Loss)
    requires AllFace(m, p)
    ensures AllFace(SetLoss(m, x, loss), p)
  {
    forall y: nat ensures Face(SetLoss(m, x, loss), M.At(p, y), y) { assert Face(m, M.At(p, y), y); }
  }

  // What a worker's step does to the services.
  lemma RunServices(s: Sys, i: nat, e: Env)
    requires s.Sys? && i < |s.ws| && s.ws[i].pc.Run? && s.ws[i].pc.id in s.services
    ensures var t, m, id := WorkerStep(s, i, e), s.services, s.ws[i].pc.id;
      t.Sys? && t.phase == s.phase && t.services ==
        match e.event
        case Compute => m
        case Yield => SetStatus(m, id, Done)
        case Exit => if id == ROOT then SetStatus(m, id, Dead) else m[id := m[id].(status := Dead, signal := true)]
        case Bind(b) => SetBinding(m, id, b)
        case Init(x, b) => SetStatus(SetBinding(m, x, b), x, Idle)
        case Discard(x) => m - {x}
  {
    var m, id := s.services, s.ws[i].pc.id;
    assert SetStatus(m, id, Dead)[id := SetStatus(m, id, Dead)[id].(signal := true)] == m[id := m[id].(status := Dead, signal := true)];
  }

  lemma RunAgrees(s: Sys, p: M.Pool, i: nat, e: Env, events: seq<M.Event>)
    requires s.Sys? && Control(s) && Owned(s) && Agree(s, p) && i < |s.ws| && s.ws[i].pc.Run? && (s.phase == Off || s.owner != i)
    requires AllowedEvent(s, s.ws[i].pc.id, e.event) && Accounts(s, p, i, e, events)
    ensures var t, q := WorkerStep(s, i, e), M.Run(p, events);
      t.Sys? && t.phase == s.phase && q.phase == p.phase && AllFace(t.services, q)
  {
    hide Control, Owned, M.Step, M.Run, WorkerStep;
    Facts(s, i);
    HeldIsOwned(s, i);
    var id := s.ws[i].pc.id;
    RunServices(s, i, e);
    if |events| == 1 { assert events == [events[0]]; OneEvent(p, events[0]); }
    match e.event {
      case Compute => UsesHide(s.services, p, events, id);
      case Yield => YieldFaces(s.services, p, id);
      case Exit => ExitFaces(s.services, p, id);
      case Bind(b) => BindFaces(s.services, p, id, b); NoEvents(p);
      case Init(x, b) => InitFaces(s.services, p, x, b);
      case Discard(x) => DiscardFaces(s.services, p, x);
    }
  }

  lemma NoEvents(p: M.Pool)
    ensures M.Run(p, []) == p
  {
  }

  // The parts of Agree.
  lemma Agreed(s: Sys, p: M.Pool)
    requires s.Sys?
    ensures Agree(s, p) <==>
      (AllFace(s.services, p) &&
       p.phase == if s.phase.Settle? && s.phase.jobs != [] then M.Settling(s.phase.jobs[0]) else M.Free)
  {
  }

  lemma CheckAgrees(s: Sys, p: M.Pool, i: nat, e: Env, events: seq<M.Event>)
    requires s.Sys? && Control(s) && Owned(s) && Agree(s, p) && i < |s.ws| && s.ws[i].pc.Check? && (s.phase == Off || s.owner != i)
    requires Accounts(s, p, i, e, events)
    ensures var t, q := WorkerStep(s, i, e), M.Run(p, events);
      t.Sys? && t.phase == s.phase && q.phase == p.phase && AllFace(t.services, q)
  {
    hide Control, Owned, M.Step, M.Run;
    CheckOwned(s, i, e);
    var id := s.ws[i].pc.id;
    if StatusOf(s.services, id) == Schedule {
      OneEvent(p, M.Start(id));
      StartFaces(s.services, p, id);
    } else {
      NoEvents(p);
      LossFaces(s.services, p, id, Rerun);
    }
  }

  lemma WorkerAgrees(s: Sys, p: M.Pool, i: nat, e: Env, events: seq<M.Event>)
    requires s.Sys? && Control(s) && Owned(s) && Agree(s, p) && i < |s.ws| && (s.phase == Off || s.owner != i)
    requires Allowed(s, i, e) && Accounts(s, p, i, e, events) && WorkerStep(s, i, e).Sys?
    ensures Agree(WorkerStep(s, i, e), M.Run(p, events))
  {
    hide Control, Owned, M.Run, WorkerStep, NextWorker, AllFace, Face;
    var t := WorkerStep(s, i, e);
    Agreed(s, p);
    Agreed(t, M.Run(p, events));
    if s.ws[i].pc.Run? {
      RunAgrees(s, p, i, e, events);
    } else if s.ws[i].pc.Check? {
      CheckAgrees(s, p, i, e, events);
    } else {
      NoEvents(p);
      ServicesKept(s, i, e);
      if s.phase == Off { IdleEffect(s, i, e); } else { RoundKept(s, i, e); }
    }
  }

  // ---------------------------------------------------------- step 2: death

  // check_message_to is the same in both views.
  lemma WakeFaces(m: Services, p: M.Pool, to: nat)
    requires AllFace(m, p)
    ensures AllFace(if StatusOf(m, to) == Idle then SetStatus(m, to, Schedule) else m, M.WakeUp(p, to))
  {
    assert Face(m, M.At(p, to), to);
    if StatusOf(m, to) == Idle { PutChanges(m, p, to, m[to].(status := Schedule), M.At(p, to).(status := M.Schedule)); }
  }

  lemma CheckedServices(s: Sys, to: nat, p: Phase)
    requires s.Sys? && CheckRoute(s, to, p).Sys?
    ensures var t := CheckRoute(s, to, p);
      t.phase == p && t.services == if StatusOf(s.services, to) == Idle then SetStatus(s.services, to, Schedule) else s.services
  {
  }

  // The signal leaves its slot.
  lemma SignalTaken(m: Services, p: M.Pool, id: nat)
    requires AllFace(m, p) && id in m && m[id].status == Dead && m[id].signal && p.phase == M.Free
    ensures var q := M.Step(p, M.Take(id));
      && q.phase.Routing? && q.phase.x == id && q.capacity == p.capacity && id < |q.s| && q.s[id].status == M.Dead
      && M.At(q, ROOT).inbox == M.At(p, ROOT).inbox && AllFace(m[id := m[id].(signal := false)], q)
  {
    var v := M.At(p, id);
    assert Face(m, v, id);
    PutChanges(m, p, id, m[id].(signal := false), v.(out := M.Empty));
    SameServices(m[id := m[id].(signal := false)], M.Put(p, id, v.(out := M.Empty)), M.Step(p, M.Take(id)));
  }

  lemma ReportAgrees(s: Sys, p: M.Pool, e: Env, events: seq<M.Event>)
    requires s.Sys? && Control(s) && Owned(s) && Agree(s, p) && s.phase.Route? && s.phase.jobs != [] && 0 <= s.owner < |s.ws|
    requires StatusOf(s.services, s.phase.jobs[0]) == Dead && Accounts(s, p, s.owner, e, events) && SchedulerStep(s, e).Sys?
    ensures Agree(SchedulerStep(s, e), M.Run(p, events))
  {
    hide Control, Owned, M.Run, M.Step, AllFace, Face, CheckRoute;
    RoutedHead(s);
    var id, m, t := s.phase.jobs[0], s.services, SchedulerStep(s, e);
    var n := m[id := m[id].(signal := false)];
    Agreed(s, p);
    Agreed(t, M.Run(p, events));
    SignalTaken(m, p, id);
    ThreeEvents(p, M.Take(id), M.Push(0), M.Check);
    var q := M.Step(p, M.Take(id));
    if StatusOf(m, ROOT) == Dead {
      RootMissing(n, q, id);
      assert n - {id} == m - {id};
    } else if e.flag {
      RootFull(n, q, id);
      LossFaces(n, q, id, Requeued);
      SameServices(SetLoss(n, id, Requeued), q, M.Step(M.Step(q, M.Push(0)), M.Check));
    } else {
      RootHears(n, q, id);
      CheckedServices(s.(services := n), ROOT, Route(s.phase.jobs[1..]));
    }
  }

  lemma RootMissing(n: Services, q: M.Pool, id: nat)
    requires AllFace(n, q) && q.phase.Routing? && q.phase.x == id < |q.s| && q.s[id].status == M.Dead && StatusOf(n, ROOT) == Dead
    ensures var r := M.Step(M.Step(q, M.Push(0)), M.Check); r.phase == M.Free && AllFace(n - {id}, r)
  {
    assert Face(n, M.At(q, ROOT), ROOT);
    FreeChanges(n, q, id);
    SameServices(n - {id}, M.Free1(q, id), M.Step(M.Step(q, M.Push(0)), M.Check));
  }

  lemma RootFull(n: Services, q: M.Pool, id: nat)
    requires AllFace(n, q) && q.phase.Routing? && q.phase.x == id < |q.s| && q.s[id].status == M.Dead && StatusOf(n, ROOT) != Dead
    requires |M.At(q, ROOT).inbox| >= q.capacity
    ensures var r := M.Step(M.Step(q, M.Push(0)), M.Check); r.phase == M.Free && r.s == q.s
  {
    assert Face(n, M.At(q, ROOT), ROOT);
  }

  lemma RootHears(n: Services, q: M.Pool, id: nat)
    requires AllFace(n, q) && q.phase.Routing? && q.phase.x == id < |q.s| && q.s[id].status == M.Dead && StatusOf(n, ROOT) != Dead
    requires |M.At(q, ROOT).inbox| < q.capacity
    ensures var r := M.Step(M.Step(q, M.Push(0)), M.Check);
      r.phase == M.Free && AllFace(if StatusOf(n, ROOT) == Idle then SetStatus(n, ROOT, Schedule) else n, r)
  {
    assert Face(n, M.At(q, ROOT), ROOT);
    var r := M.Step(q, M.Push(0));
    forall x: nat ensures Face(n, M.At(r, x), x) { assert Face(n, M.At(q, x), x); }
    WakeFaces(n, r, ROOT);
    SameServices(if StatusOf(n, ROOT) == Idle then SetStatus(n, ROOT, Schedule) else n, M.WakeUp(r, ROOT), M.Step(r, M.Check));
  }

  // ------------------------------------------------------- step 2: messages

  // The outgoing message leaves its slot, or there is none.
  lemma MessageTaken(m: Services, p: M.Pool, id: nat)
    requires AllFace(m, p) && id in m && m[id].status == Done && p.phase == M.Free
    ensures var q, v := M.Step(p, M.Take(id)), M.At(p, id);
      && id < |p.s| == |q.s| && q.s[id].status == M.Done && AllFace(m, q)
      && q.phase == match v.out { case Empty => M.Settling(id) case Full(a) => M.Routing(id, a) }
      && forall x :: M.At(q, x).status == M.At(p, x).status
  {
    var v := M.At(p, id);
    assert Face(m, v, id);
    var w := v.(out := M.Empty);
    assert m[id := m[id]] == m;
    PutChanges(m, p, id, m[id], w);
    if v.out == M.Empty {
      SameServices(m, p, M.Step(p, M.Take(id)));
    } else {
      SameServices(m, M.Put(p, id, w), M.Step(p, M.Take(id)));
    }
  }

  lemma ReceiptFaces(m: Services, p: M.Pool, id: nat, receipt: M.Receipt, bounce: M.Slot)
    requires AllFace(m, p) && id < |p.s|
    ensures AllFace(m, M.WriteReceipt(p, id, receipt, bounce))
  {
    forall x: nat ensures Face(m, M.At(M.WriteReceipt(p, id, receipt, bounce), x), x) { assert Face(m, M.At(p, x), x); }
  }

  lemma DeliverFaces(m: Services, p: M.Pool, id: nat, a: M.Message, to: nat)
    requires AllFace(m, p) && id < |p.s|
    ensures var q := M.Deliver(p, id, a, to); AllFace(m, q) && q.phase == M.Checking(id, to)
  {
    hide M.WriteReceipt;
    var v := M.At(p, to);
    ReceiptFaces(m, p, id, M.RError, M.Full(a));
    if v.status != M.Absent && v.status != M.Dead {
      ReceiptFaces(m, p, id, M.RBlock, M.Full(a));
      var q := M.Put(p, to, v.(inbox := v.inbox + [a]));
      forall x: nat ensures Face(m, M.At(q, x), x) { assert Face(m, M.At(p, x), x); }
      ReceiptFaces(m, q, id, M.RDone, M.Empty);
      if |v.inbox| >= p.capacity {
        SameServices(m, M.WriteReceipt(p, id, M.RBlock, M.Full(a)), M.Deliver(p, id, a, to));
      } else {
        SameServices(m, M.WriteReceipt(q, id, M.RDone, M.Empty), M.Deliver(p, id, a, to));
      }
    } else {
      SameServices(m, M.WriteReceipt(p, id, M.RError, M.Full(a)), M.Deliver(p, id, a, to));
    }
  }

  lemma ToAgrees(m: Services, p: M.Pool, id: nat, to: nat)
    requires AllFace(m, p) && id in m && m[id].status == Done && p.phase == M.Free
    requires M.At(p, id).out.Full? && M.At(p, id).out.m.kind == M.To(to)
    ensures var r := M.Run(p, [M.Take(id), M.Push(0), M.Check]);
      r.phase == M.Settling(id) && AllFace(if StatusOf(m, to) == Idle then SetStatus(m, to, Schedule) else m, r)
  {
    hide M.Run, M.TakeStep, M.Deliver, AllFace, Face;
    MessageTaken(m, p, id);
    ThreeEvents(p, M.Take(id), M.Push(0), M.Check);
    var q := M.Step(p, M.Take(id));
    var r := M.Step(q, M.Push(0));
    DeliverFaces(m, q, id, q.phase.m, to);
    WakeFaces(m, r, to);
    SameServices(if StatusOf(m, to) == Idle then SetStatus(m, to, Schedule) else m, M.WakeUp(r, to), M.Step(r, M.Check));
  }

  // A message to the system is answered, and may make or delete a service.
  lemma SystemAgrees(m: Services, p: M.Pool, id: nat, slot: nat)
    requires AllFace(m, p) && id in m && m[id].status == Done && p.phase == M.Free
    requires M.At(p, id).out.Full? && !M.At(p, id).out.m.kind.To?
    requires var k := M.At(p, id).out.m.kind;
      if id == ROOT && k.New? then slot != 0 ==> slot !in m && slot < |p.s| else id == ROOT && k.Delete? ==> k.id != ROOT
    ensures var r, k := M.Run(p, [M.Take(id), M.Push(slot)]), M.At(p, id).out.m.kind;
      && r.phase == M.Settling(id)
      && AllFace(if id == ROOT && k.New? && slot != 0 then m[slot := Service(Uninitialized, false, Intact, -1)]
                 else if id == ROOT && k.Delete? then m - {k.id} else m, r)
  {
    hide M.Run, M.TakeStep, M.ScheduleMessage, M.WriteReceipt, AllFace, Face;
    MessageTaken(m, p, id);
    TwoEvents(p, M.Take(id), M.Push(slot));
    var q := M.Step(p, M.Take(id));
    var a := q.phase.m;
    var r := M.ScheduleMessage(q, id, a, slot);
    assert M.Step(q, M.Push(slot)) == r.(phase := M.Settling(id));
    if id == ROOT && a.kind.New? && slot != 0 {
      NewFaces(m, q, a, slot);
      SameServices(m[slot := Service(Uninitialized, false, Intact, -1)], r, r.(phase := M.Settling(id)));
    } else if id == ROOT && a.kind.Delete? {
      DeleteFaces(m, q, a, slot);
      SameServices(m - {a.kind.id}, r, r.(phase := M.Settling(id)));
    } else {
      RefusedFaces(m, q, id, a, slot);
      SameServices(m, r, r.(phase := M.Settling(id)));
    }
  }

  lemma NewFaces(m: Services, q: M.Pool, a: M.Message, slot: nat)
    requires AllFace(m, q) && ROOT < |q.s| && a.kind.New? && slot != 0 && slot < |q.s| && slot !in m && ROOT in m
    ensures AllFace(m[slot := Service(Uninitialized, false, Intact, -1)], M.ScheduleMessage(q, ROOT, a, slot))
  {
    hide M.WriteReceipt;
    assert Face(m, M.At(q, slot), slot);
    var n := m[slot := Service(Uninitialized, false, Intact, -1)];
    var r := M.Put(q, slot, M.NOBODY.(status := M.Uninitialized));
    OneChanges(m, n, q, r, slot);
    ReceiptFaces(n, r, ROOT, M.RResponse, M.Full(a));
  }

  lemma DeleteFaces(m: Services, q: M.Pool, a: M.Message, slot: nat)
    requires AllFace(m, q) && ROOT < |q.s| && a.kind.Delete? && a.kind.id != ROOT
    ensures AllFace(m - {a.kind.id}, M.ScheduleMessage(q, ROOT, a, slot))
  {
    hide M.WriteReceipt;
    var id, n := a.kind.id, m - {a.kind.id};
    var r := if id < |q.s| then M.Free1(q, id) else q;
    if id < |q.s| { FreeChanges(m, q, id); } else { OutOfRange(m, q, id); }
    var u := r.(deleted := r.deleted + multiset{a});
    SameServices(n, r, u);
    ReceiptFaces(n, u, ROOT, M.RDone, M.Empty);
  }

  lemma RefusedFaces(m: Services, q: M.Pool, id: nat, a: M.Message, slot: nat)
    requires AllFace(m, q) && id < |q.s| && !(id == ROOT && (a.kind.Delete? || (a.kind.New? && slot != 0)))
    ensures AllFace(m, M.ScheduleMessage(q, id, a, slot))
  {
    hide M.WriteReceipt;
    ReceiptFaces(m, q, id, M.RError, M.Full(a));
  }

  lemma RouteAgrees(s: Sys, p: M.Pool, e: Env, events: seq<M.Event>)
    requires s.Sys? && Control(s) && Owned(s) && Agree(s, p) && s.phase.Route? && s.phase.jobs != [] && 0 <= s.owner < |s.ws|
    requires StatusOf(s.services, s.phase.jobs[0]) != Dead && AllowedRoute(s, e)
    requires Accounts(s, p, s.owner, e, events) && SchedulerStep(s, e).Sys?
    ensures Agree(SchedulerStep(s, e), M.Run(p, events))
  {
    hide Control, Owned, M.Run, M.Step, AllFace, Face, CheckRoute;
    RoutedHead(s);
    var id, m, t := s.phase.jobs[0], s.services, SchedulerStep(s, e);
    Agreed(s, p);
    Agreed(t, M.Run(p, events));
    match M.At(p, id).out {
      case Empty =>
        MessageTaken(m, p, id);
        OneEvent(p, M.Take(id));
      case Full(a) =>
        if a.kind.To? {
          ToAgrees(m, p, id, a.kind.to);
          CheckedServices(s, a.kind.to, Settle(s.phase.jobs));
        } else {
          SystemAgrees(m, p, id, if e.message.New? then e.message.id else 0);
        }
    }
  }

  lemma SettleAgrees(s: Sys, p: M.Pool, e: Env, events: seq<M.Event>)
    requires s.Sys? && Control(s) && Agree(s, p) && s.phase.Settle? && 0 <= s.owner < |s.ws|
    requires Accounts(s, p, s.owner, e, events) && SchedulerStep(s, e).Sys?
    ensures Agree(SchedulerStep(s, e), M.Run(p, events))
  {
    hide Control, M.Run, AllFace, Face;
    Facts2(s);
    var id, m, t := s.phase.jobs[0], s.services, SchedulerStep(s, e);
    var idle :| events == [M.Settle(idle)] && (e.flag <==> M.HasMessage(M.At(p, s.phase.jobs[0])) || idle);
    Agreed(s, p);
    Agreed(t, M.Run(p, events));
    OneEvent(p, M.Settle(idle));
    SettleFaces(m, p, id, idle);
  }

  lemma SettleFaces(m: Services, p: M.Pool, id: nat, idle: bool)
    requires AllFace(m, p) && p.phase == M.Settling(id) && StatusOf(m, id) == Done
    ensures var q := M.Step(p, M.Settle(idle));
      q.phase == M.Free && AllFace(SetStatus(m, id, if M.HasMessage(M.At(p, id)) || idle then Schedule else Idle), q)
  {
    var v := M.At(p, id);
    assert Face(m, v, id);
    var q := M.Step(p, M.Settle(idle));
    OneChanges(m, SetStatus(m, id, if M.HasMessage(v) || idle then Schedule else Idle), p, q, id);
  }

  lemma SchedulerAgrees(s: Sys, p: M.Pool, e: Env, events: seq<M.Event>)
    requires s.Sys? && Control(s) && Owned(s) && Agree(s, p) && s.phase != Off && 0 <= s.owner < |s.ws|
    requires AllowedRoute(s, e) && Accounts(s, p, s.owner, e, events) && SchedulerStep(s, e).Sys?
    ensures Agree(SchedulerStep(s, e), M.Run(p, events))
  {
    hide Control, Owned, M.Run, SchedulerStep, Accounts;
    if s.phase.Route? && s.phase.jobs != [] {
      if StatusOf(s.services, s.phase.jobs[0]) == Dead { ReportAgrees(s, p, e, events); } else { RouteAgrees(s, p, e, events); }
    } else if s.phase.Settle? {
      SettleAgrees(s, p, e, events);
    } else {
      QuietAgrees(s, p, e, events);
    }
  }

  lemma QuietAgrees(s: Sys, p: M.Pool, e: Env, events: seq<M.Event>)
    requires s.Sys? && Agree(s, p) && s.phase != Off && 0 <= s.owner < |s.ws| && SchedulerStep(s, e).Sys?
    requires !s.phase.Settle? && (s.phase.Route? ==> s.phase.jobs == []) && Accounts(s, p, s.owner, e, events)
    ensures Agree(SchedulerStep(s, e), M.Run(p, events))
  {
    hide M.Run, AllFace, Face, SchedulerStep;
    var t := SchedulerStep(s, e);
    NoEvents(p);
    Agreed(s, p);
    Agreed(t, p);
    NotSettling(s, e);
    if !s.phase.Route? { OnlyRouting(s, e); }
  }

  lemma NotSettling(s: Sys, e: Env)
    requires s.Sys? && 0 <= s.owner < |s.ws| && SchedulerStep(s, e).Sys?
    requires !s.phase.Settle? && (s.phase.Route? ==> s.phase.jobs == [])
    ensures !SchedulerStep(s, e).phase.Settle? && (s.phase.Route? ==> SchedulerStep(s, e).services == s.services)
  {
    hide SchedulerStep;
    if TailPhase(s.phase) || s.phase.Trigger? {
      TailSettlesNot(s, e);
    } else if s.phase.Prepare? || s.phase.Count? || s.phase.Assign? {
      PlaceSettlesNot(s, e);
    } else {
      RestSettlesNot(s, e);
    }
  }

  lemma TailSettlesNot(s: Sys, e: Env)
    requires s.Sys? && 0 <= s.owner < |s.ws| && (TailPhase(s.phase) || s.phase.Trigger?)
    ensures SchedulerStep(s, e).Sys? && !SchedulerStep(s, e).phase.Settle?
  {
    hide BindingOf;
  }

  lemma PlaceSettlesNot(s: Sys, e: Env)
    requires s.Sys? && 0 <= s.owner < |s.ws| && (s.phase.Prepare? || s.phase.Count? || s.phase.Assign?)
    ensures SchedulerStep(s, e).Sys? ==> !SchedulerStep(s, e).phase.Settle?
  {
    hide TakeBound, BindingOf;
  }

  lemma RestSettlesNot(s: Sys, e: Env)
    requires s.Sys? && 0 <= s.owner < |s.ws| && SchedulerStep(s, e).Sys? && !s.phase.Settle?
    requires !TailPhase(s.phase) && !s.phase.Trigger? && !s.phase.Prepare? && !s.phase.Count? && !s.phase.Assign?
    requires s.phase.Route? ==> s.phase.jobs == []
    ensures !SchedulerStep(s, e).phase.Settle? && (s.phase.Route? ==> SchedulerStep(s, e).services == s.services)
  {
    hide BindingOf;
  }

  // -------------------------------------------------------------- joint runs

  // One step of the scheduler's model, and what the mailboxes see of it.
  datatype Move = Move(action: Action, events: seq<M.Event>)

  function Actions(moves: seq<Move>): seq<Action> {
    seq(|moves|, k requires 0 <= k < |moves| => moves[k].action)
  }

  function Events(moves: seq<Move>): seq<M.Event> {
    if moves == [] then [] else moves[0].events + Events(moves[1..])
  }

  ghost predicate Joint(s: Sys, p: M.Pool, moves: seq<Move>)
    decreases |moves|
  {
    moves != [] ==>
      var a := moves[0].action;
      && Allowed(s, a.worker, a.env) && Accounts(s, p, a.worker, a.env, moves[0].events)
      && Joint(Step(s, a.worker, a.env), M.Run(p, moves[0].events), moves[1..])
  }

  lemma StepAgrees(s: Sys, p: M.Pool, a: Action, events: seq<M.Event>)
    requires s.Sys? && Good(s) && Agree(s, p) && Allowed(s, a.worker, a.env)
    requires Accounts(s, p, a.worker, a.env, events) && Step(s, a.worker, a.env).Sys?
    ensures Agree(Step(s, a.worker, a.env), M.Run(p, events))
  {
    hide Control, Owned, Agree, M.Run, WorkerStep, SchedulerStep, Allowed;
    var i, e := a.worker, a.env;
    if i >= |s.ws| {
      NoEvents(p);
    } else if s.phase != Off && s.owner == i {
      AllowedCases(s, i, e);
      SchedulerAgrees(s, p, e, events);
    } else {
      WorkerAgrees(s, p, i, e, events);
    }
  }

  lemma {:induction false} RunsTogether(p: M.Pool, xs: seq<M.Event>, ys: seq<M.Event>)
    ensures M.Run(p, xs + ys) == M.Run(M.Run(p, xs), ys)
    decreases |xs|
  {
    hide M.Step;
    if xs == [] {
      assert xs + ys == ys;
    } else {
      assert (xs + ys)[0] == xs[0] && (xs + ys)[1..] == xs[1..] + ys;
      RunsTogether(M.Step(p, xs[0]), xs[1..], ys);
    }
  }

  // Both views see the same services in every state of a joint run.
  lemma {:induction false} ViewsAgree(s: Sys, p: M.Pool, moves: seq<Move>)
    requires s.Sys? && Good(s) && Agree(s, p) && Joint(s, p, moves) && RunAll(s, Actions(moves)).Sys?
    ensures AllAllowed(s, Actions(moves)) && Agree(RunAll(s, Actions(moves)), M.Run(p, Events(moves)))
    decreases |moves|
  {
    hide Good, Agree, Accounts, Step, Allowed, M.Run;
    if moves == [] {
      NoEvents(p);
    } else {
      var a, events := moves[0].action, moves[0].events;
      var t, q := Step(s, a.worker, a.env), M.Run(p, events);
      assert Actions(moves)[0] == a && Actions(moves)[1..] == Actions(moves[1..]);
      if !t.Sys? { FailedRun(t, Actions(moves[1..])); }
      StepKeeps(s, a.worker, a.env);
      StepAgrees(s, p, a, events);
      ViewsAgree(t, q, moves[1..]);
      RunsTogether(p, events, Events(moves[1..]));
    }
  }

  // Root's message asks to delete service x.
  predicate AsksToDelete(s: Sys, p: M.Pool, x: nat)
    requires s.Sys?
  {
    s.phase.Route? && s.phase.jobs != [] && s.phase.jobs[0] == ROOT && M.At(p, ROOT).out.Full? &&
    M.At(p, ROOT).out.m.kind == M.Delete(x)
  }

  // Every worker can move in a joint run: the views leave no step without its
  // counterpart, but for root deleting a service that still lives.
  lemma NextMove(s: Sys, p: M.Pool, i: nat) returns (e: Env, events: seq<M.Event>)
    requires s.Sys? && Agree(s, p)
    requires forall x: nat | AsksToDelete(s, p, x) :: Removable(s.services, x)
    ensures Allowed(s, i, e) && Accounts(s, p, i, e, events)
  {
    e, events := Env(true, false, NoMessage, Compute), [];
    if i < |s.ws| && s.phase != Off && s.owner == i {
      if s.phase.Route? && s.phase.jobs != [] {
        var id := s.phase.jobs[0];
        if StatusOf(s.services, id) == Dead {
          e, events := e.(flag := |M.At(p, ROOT).inbox| >= p.capacity), [M.Take(id), M.Push(0), M.Check];
        } else {
          match M.At(p, id).out {
            case Empty => events := [M.Take(id)];
            case Full(m) =>
              if m.kind.To? {
                e, events := e.(message := SchedModel.To(m.kind.to)), [M.Take(id), M.Push(0), M.Check];
              } else {
                events := [M.Take(id), M.Push(0)];
                if m.kind.Delete? && id == ROOT { e := e.(message := SchedModel.Delete(m.kind.id)); }
              }
          }
        }
      } else if s.phase.Settle? && s.phase.jobs != [] {
        e, events := e.(flag := M.HasMessage(M.At(p, s.phase.jobs[0]))), [M.Settle(false)];
      }
    } else if i < |s.ws| && s.ws[i].pc.Check? && StatusOf(s.services, s.ws[i].pc.id) == Schedule {
      events := [M.Start(s.ws[i].pc.id)];
    }
  }

  // ------------------------------------------------------------ main results

  lemma NobodyInLine(s: Sys, x: nat, k: Kind)
    requires s.Sys? && NothingLeft(s) && s.phase == Off && x != 0
    ensures Total(s, x, k) == 0
  {
    hide Engaged;
    NobodyHolds(s.ws, x, k);
  }

  // With every worker blocked, each service is idle, dead or never set up.
  lemma AllIdle(s0: Sys, actions: seq<Action>, s: Sys, x: nat)
    requires Reaches(s0, actions, s) && s.Sys? && AllBlocked(s) && s.started && x != 0
    ensures StatusOf(s.services, x) == Idle || StatusOf(s.services, x) == Dead || StatusOf(s.services, x) == Uninitialized
  {
    hide Reaches, AllBlocked, Good, NothingLeft, Total;
    ReachedIsGood(s0, actions, s);
    BlockedFacts(s);
    NoStrandedWork(s0, actions, s);
    OnePlace(s0, actions, s, x);
    NobodyInLine(s, x, Ready);
    NobodyInLine(s, x, Active);
    NobodyInLine(s, x, Finished);
  }

  lemma NullIsAbsent(s: Sys)
    requires s.Sys? && Good(s)
    ensures 0 !in s.services
  {
  }

  lemma QuietService(p: M.Pool, x: nat)
    requires M.Inv(p) && p.phase == M.Free && x < |p.s|
    requires p.s[x].status in {M.Absent, M.Uninitialized, M.Idle}
    ensures var v := p.s[x]; v.inbox == [] && v.receipt == M.NoReceipt && v.out == M.Empty && !v.waits
  {
    hide M.Conserved;
    assert M.Shape(x, p.s[x]) && M.ReceiptDue(p, x) && M.IdleMeansIdle(p, x);
  }

  // No message and no receipt of a living service waits while everybody
  // sleeps: whatever is in a mailbox will be looked at. Nor is a death left
  // that root does not know of, unless its mailbox was full.
  lemma NothingUnread(s0: Sys, p0: M.Pool, moves: seq<Move>, x: nat)
    requires Start(s0) && MailTheorem.Begins(p0) && Agree(s0, p0) && Joint(s0, p0, moves)
    requires MailTheorem.AllReady(p0, Events(moves)) && RunAll(s0, Actions(moves)).Sys?
    requires var s := RunAll(s0, Actions(moves)); AllBlocked(s) && s.started
    ensures var q := M.Run(p0, Events(moves));
      x < |q.s| ==> var v := q.s[x];
        if v.status != M.Dead then v.inbox == [] && v.receipt == M.NoReceipt && v.out == M.Empty && !v.waits
        else x == ROOT || v.out == M.Empty
  {
    hide AllBlocked, Good, Start, Agree, Joint, RunAll, AllAllowed, M.Inv, MailTheorem.Begins, MailTheorem.AllReady, M.Run;
    var s, p := RunAll(s0, Actions(moves)), M.Run(p0, Events(moves));
    StartGood(s0);
    ViewsAgree(s0, p0, moves);
    MailTheorem.BeginInv(p0);
    MailTheorem.RunKeeps(p0, Events(moves));
    ReachedIsGood(s0, Actions(moves), s);
    BlockedFacts(s);
    if x < |p.s| {
      FacesOf(s, p, x);
      if x == 0 {
        NullIsAbsent(s);
      } else {
        AllIdle(s0, Actions(moves), s, x);
        if x in s.services && s.services[x].signal { NoSignalLeft(s0, Actions(moves), s, x); }
      }
      if p.s[x].status != M.Dead { QuietService(p, x); }
    }
  }

  lemma FacesOf(s: Sys, p: M.Pool, x: nat)
    requires s.Sys? && Agree(s, p) && x < |p.s|
    ensures Face(s.services, p.s[x], x) && (s.phase == Off ==> p.phase == M.Free)
  {
    assert Face(s.services, M.At(p, x), x);
  }

  lemma NoSignalLeft(s0: Sys, actions: seq<Action>, s: Sys, x: nat)
    requires Reaches(s0, actions, s) && s.Sys? && AllBlocked(s) && s.started && x in s.services && x != 0
    ensures !s.services[x].signal
  {
    hide Reaches, AllBlocked, Good, NothingLeft, Total;
    ReachedIsGood(s0, actions, s);
    BlockedFacts(s);
    NoStrandedWork(s0, actions, s);
    OnePlace(s0, actions, s, x);
    NobodyInLine(s, x, Finished);
  }
}
