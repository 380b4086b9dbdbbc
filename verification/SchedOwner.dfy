// One owner per service: every live service id is in exactly one place, and
// its status says which kind of place that is.
module SchedOwner {
  import opened SchedModel
  import opened Sets

  // Waiting to run, running, or run and not yet settled.
  datatype Kind = Ready | Active | Finished

  // ---------------------------------------------------------------- counting

  function If(b: bool): nat {
    if b then 1 else 0
  }

  // The id a worker has between the two compare-and-swaps.
  function Held(pc: Pc): (nat, Kind) {
    match pc
    case Begin(id) => (id, Ready)
    case Check(id) => (id, Ready)
    case Run(id) => (id, Active)
    case After(id, _) => (id, Finished)
    case Complete(id) => (id, Finished)
    case AcquireFor(id) => (id, Finished)
    case Complete2(id) => (id, Finished)
    case Redo(id) => (id, Finished)
    case Complete3(id) => (id, Finished)
    case _ => (0, Ready)
  }

  // How often id x is in one of a worker's places of kind k.
  function InWorker(w: Worker, x: nat, k: Kind): nat {
    (if k == Ready then If(w.ready == x && x != 0) + multiset(w.queue)[x] else 0) +
    If(k == Finished && w.done == x && x != 0) +
    If(Held(w.pc) == (x, k) && x != 0)
  }

  function InWorkers(ws: seq<Worker>, x: nat, k: Kind): nat {
    if ws == [] then 0 else InWorker(ws[0], x, k) + InWorkers(ws[1..], x, k)
  }

  // What the scheduler has in its hands.
  function Local(p: Phase): (seq<nat>, Kind) {
    match p
    case Collect(_, jobs) => (jobs, Finished)
    case Route(jobs) => (jobs, Finished)
    case Settle(jobs) => (jobs, Finished)
    case Pending(_, jobs, _) => (jobs, Ready)
    case PendingCas(_, _, jobs, _) => (jobs, Ready)
    case Count(_, _, jobs, _) => (jobs, Ready)
    case CountWake(_, _, jobs, _) => (jobs, Ready)
    case Prepare(_, prep) => (prep, Ready)
    case PrepareWake(_, _, prep) => (prep, Ready)
    case Assign(_, _, _, prep) => (prep, Ready)
    case AssignWake(_, _, _, prep) => (prep, Ready)
    case OwnStore(job) => ([job], Ready)
    case _ => ([], Ready)
  }

  function InLocal(p: Phase, x: nat, k: Kind): nat {
    if Local(p).1 == k then multiset(Local(p).0)[x] else 0
  }

  function InQueue(q: seq<nat>, x: nat, k: Kind): nat {
    if k == Ready then multiset(q)[x] else 0
  }

  // All places of kind k that hold id x.
  function Total(s: Sys, x: nat, k: Kind): nat
    requires s.Sys?
  {
    InWorkers(s.ws, x, k) + InLocal(s.phase, x, k) + InQueue(s.schedule, x, k)
  }

  // How often x should be in a place of kind k, by its status.
  function Expected(m: Services, x: nat, k: Kind): nat {
    If(x in m && match m[x].status
      case Schedule => k == Ready
      case Running => k == Active
      case Done => k == Finished
      case Dead => (k == Finished && (m[x].signal || m[x].loss == Rerun)) || (k == Ready && m[x].loss == Requeued)
      case _ => false)
  }

  ghost predicate Owned(s: Sys)
    requires s.Sys?
  {
    forall x: nat, k: Kind :: Total(s, x, k) == Expected(s.services, x, k)
  }

  // ----------------------------------------------------------------- control

  // Program points at which a worker owns the scheduler.
  predicate OwnerPc(pc: Pc) {
    pc.Complete2? || pc.Redo? || pc.Complete3? || pc.Serve?
  }

  predicate TailPhase(p: Phase) {
    p.HasJob? || p.OwnSteal? || p.OwnCas? || p.OwnStore? || p.Release?
  }

  // No program counter or local variable holds the null id as a job.
  predicate GoodPc(pc: Pc) {
    match pc
    case GetCas(job) => job != 0
    case Begin(id) => id != 0
    case Check(id) => id != 0
    case Run(id) => id != 0
    case After(id, _) => id != 0
    case Complete(id) => id != 0
    case AcquireFor(id) => id != 0
    case Complete2(id) => id != 0
    case Redo(id) => id != 0
    case Complete3(id) => id != 0
    case _ => true
  }

  predicate GoodService(v: Service, n: nat) {
    -1 <= v.binding < n && (v.signal ==> v.status == Dead && v.loss == Intact) && (v.loss != Intact ==> v.status == Dead)
  }

  ghost predicate GoodServices(m: Services, n: nat) {
    0 !in m && forall x | x in m :: GoodService(m[x], n)
  }

  // Who runs the scheduler, and what its local variables are about.
  ghost predicate GoodPhase(p: Phase, owner: Worker, m: Services) {
    && (owner.pc.Serve? || (owner.pc.Redo? && !TailPhase(p)))
    && match p
      case PendingCas(_, job, _, _) => job != 0
      case Settle(jobs) => jobs != [] && StatusOf(m, jobs[0]) == Done
      case OwnSteal(_) => owner.ready == 0
      case OwnCas(_, job) => owner.ready == 0 && job != 0
      case OwnStore(job) => owner.ready == 0 && job != 0
      case _ => true
  }

  ghost predicate Control(s: Sys)
    requires s.Sys?
  {
    && s.ws != []
    && (forall i | 0 <= i < |s.ws| :: GoodPc(s.ws[i].pc))
    && (s.owner == NONE || 0 <= s.owner < |s.ws|)
    && (forall i | 0 <= i < |s.ws| :: OwnerPc(s.ws[i].pc) <==> i == s.owner)
    && (s.phase == Off ==> s.owner == NONE || !(s.ws[s.owner].pc.Redo? || s.ws[s.owner].pc.Serve?))
    && (s.phase != Off ==> s.owner != NONE && GoodPhase(s.phase, s.ws[s.owner], s.services))
    && GoodServices(s.services, |s.ws|) && |s.services| < s.size
  }

  // -------------------------------------------------------------- bookkeeping

  lemma {:induction false} Replace(ws: seq<Worker>, i: nat, w: Worker, x: nat, k: Kind)
    requires i < |ws|
    ensures InWorkers(ws[i := w], x, k) + InWorker(ws[i], x, k) == InWorkers(ws, x, k) + InWorker(w, x, k)
  {
    if i > 0 {
      assert ws[i := w][1..] == ws[1..][i - 1 := w];
      Replace(ws[1..], i - 1, w, x, k);
    } else {
      assert ws[i := w][1..] == ws[1..];
    }
  }

  lemma {:induction false} Holds(ws: seq<Worker>, i: nat, x: nat, k: Kind)
    requires i < |ws|
    ensures InWorkers(ws, x, k) >= InWorker(ws[i], x, k)
  {
    if i > 0 { Holds(ws[1..], i - 1, x, k); }
  }

  lemma {:induction false} HoldsTwo(ws: seq<Worker>, i: nat, j: nat, x: nat, k: Kind)
    requires i < j < |ws|
    ensures InWorkers(ws, x, k) >= InWorker(ws[i], x, k) + InWorker(ws[j], x, k)
  {
    if i > 0 { HoldsTwo(ws[1..], i - 1, j - 1, x, k); } else { Holds(ws[1..], j - 1, x, k); }
  }

  // What a step that changes one worker can reach.
  function Places(w: Worker, p: Phase, q: seq<nat>, x: nat, k: Kind): nat {
    InWorker(w, x, k) + InLocal(p, x, k) + InQueue(q, x, k)
  }

  // The step made worker i into w and moved every id just as it changed the
  // statuses.
  ghost predicate Shifted(s: Sys, t: Sys, i: nat, w: Worker) {
    && s.Sys? && t.Sys? && i < |s.ws| && t.ws == s.ws[i := w]
    && forall x: nat, k: Kind ::
        Places(w, t.phase, t.schedule, x, k) + Expected(s.services, x, k) ==
        Places(s.ws[i], s.phase, s.schedule, x, k) + Expected(t.services, x, k)
  }

  lemma ShiftKeepsOwned(s: Sys, t: Sys, i: nat, w: Worker)
    requires Shifted(s, t, i, w) && Owned(s)
    ensures Owned(t)
  {
    forall x: nat, k: Kind ensures Total(t, x, k) == Expected(t.services, x, k) {
      Replace(s.ws, i, w, x, k);
      ShiftOne(s, t, i, w, x, k);
    }
  }

  lemma ShiftOne(s: Sys, t: Sys, i: nat, w: Worker, x: nat, k: Kind)
    requires Shifted(s, t, i, w) && Owned(s)
    requires InWorkers(t.ws, x, k) + InWorker(s.ws[i], x, k) == InWorkers(s.ws, x, k) + InWorker(w, x, k)
    ensures Total(t, x, k) == Expected(t.services, x, k)
  {
    hide Expected, InWorker, InWorkers, InLocal, InQueue;
    assert Total(s, x, k) == Expected(s.services, x, k);
    assert Places(w, t.phase, t.schedule, x, k) + Expected(s.services, x, k) ==
        Places(s.ws[i], s.phase, s.schedule, x, k) + Expected(t.services, x, k);
  }

  predicate SameTokens(v: Worker, w: Worker) {
    v.ready == w.ready && v.done == w.done && v.queue == w.queue && Held(v.pc) == Held(w.pc)
  }

  lemma SameTokensCount(v: Worker, w: Worker, x: nat, k: Kind)
    requires SameTokens(v, w)
    ensures InWorker(v, x, k) == InWorker(w, x, k)
  {
    hide Held;
  }

  // A step that moves no id at all.
  lemma Still(s: Sys, t: Sys, i: nat, w: Worker)
    requires s.Sys? && t.Sys? && i < |s.ws| && t.ws == s.ws[i := w] && SameTokens(w, s.ws[i])
    requires t.schedule == s.schedule && t.services == s.services
    requires t.phase == s.phase || Local(t.phase) == Local(s.phase) || (Local(t.phase).0 == Local(s.phase).0 == [])
    requires Owned(s)
    ensures Owned(t)
  {
    hide InWorker, Expected, Held, Local, SameTokens, Owned;
    forall x: nat, k: Kind ensures InWorker(w, x, k) == InWorker(s.ws[i], x, k) {
      SameTokensCount(w, s.ws[i], x, k);
    }
    ShiftKeepsOwned(s, t, i, w);
  }

  lemma CountTail(q: seq<nat>, x: nat)
    requires q != []
    ensures multiset(q)[x] == If(q[0] == x) + multiset(q[1..])[x]
  {
    assert q == [q[0]] + q[1..];
  }

  lemma CountAppend(q: seq<nat>, y: nat, x: nat)
    ensures multiset(q + [y])[x] == multiset(q)[x] + If(x == y)
  {
  }

  lemma HeldIsOwned(s: Sys, i: nat)
    requires s.Sys? && Owned(s) && i < |s.ws|
    ensures var (x, k) := Held(s.ws[i].pc); x != 0 ==> Expected(s.services, x, k) == 1
  {
    var (x, k) := Held(s.ws[i].pc);
    if x != 0 {
      Holds(s.ws, i, x, k);
      assert Total(s, x, k) == Expected(s.services, x, k);
    }
  }

  lemma LocalIsOwned(s: Sys, x: nat)
    requires s.Sys? && Owned(s) && x in Local(s.phase).0
    ensures Expected(s.services, x, Local(s.phase).1) == 1
  {
    var k := Local(s.phase).1;
    assert Total(s, x, k) == Expected(s.services, x, k);
  }

  lemma QueuedIsOwned(s: Sys, x: nat)
    requires s.Sys? && Owned(s) && x in s.schedule
    ensures Expected(s.services, x, Ready) == 1
  {
    assert Total(s, x, Ready) == Expected(s.services, x, Ready);
  }

  lemma BoundIsOwned(s: Sys, i: nat, x: nat)
    requires s.Sys? && Owned(s) && i < |s.ws| && x in s.ws[i].queue
    ensures Expected(s.services, x, Ready) == 1
  {
    Holds(s.ws, i, x, Ready);
    assert Total(s, x, Ready) == Expected(s.services, x, Ready);
  }

  // ------------------------------------------------------------ worker steps

  predicate OwnPc(pc: Pc) {
    pc.Top? || pc.Get? || pc.Begin? || pc.CheckDone? || pc.Decide? || pc.Sleep? || pc.Lock? || pc.Locked? ||
    pc.Waiting? || pc.Exited? || pc.Redo? || pc.Serve?
  }

  lemma OwnStepSlots(w: Worker, blocked: bool)
    ensures var v := OwnStep(w, blocked);
      v.ready == w.ready && v.done == w.done && v.queue == w.queue && v.binding == w.binding && v.term == w.term
  {
    if w.pc.Top? || w.pc.Get? || w.pc.Begin? || w.pc.CheckDone? || w.pc.Decide? {
    } else if w.pc.Sleep? || w.pc.Lock? || w.pc.Locked? || w.pc.Waiting? {
    } else {
      assert OwnStep(w, blocked) == w;
    }
  }

  // Where such a step can lead.
  predicate Follows(w: Worker, pc: Pc) {
    match pc
    case GetCas(job) => w.pc.Get? && job == w.ready != 0
    case Check(id) => w.pc == Begin(id)
    case Exited => w.pc.Top? && w.term
    case _ => (pc.Top? || pc.Get? || pc.Acquire? || pc.CheckDone? || OnTheWayToSleep(pc)) && Between(w.pc)
  }

  predicate OnTheWayToSleep(pc: Pc) {
    pc.Decide? || pc.Sleep? || pc.Lock? || pc.Locked? || pc.Waiting?
  }

  predicate Between(pc: Pc) {
    pc.Top? || pc.Get? || pc.CheckDone? || OnTheWayToSleep(pc)
  }

  lemma OwnStepPcs(w: Worker, blocked: bool)
    ensures OwnStep(w, blocked).pc == w.pc || Follows(w, OwnStep(w, blocked).pc)
  {
    if w.pc.Top? || w.pc.Get? || w.pc.Begin? {
    } else if w.pc.CheckDone? || w.pc.Decide? {
    } else if w.pc.Sleep? || w.pc.Lock? {
    } else if w.pc.Locked? || w.pc.Waiting? {
    } else {
      assert OwnStep(w, blocked) == w;
    }
  }

  lemma FollowsHeld(w: Worker, pc: Pc)
    requires pc == w.pc || Follows(w, pc)
    ensures Held(pc) == Held(w.pc)
  {
  }

  lemma OwnStepTokens(w: Worker, blocked: bool)
    ensures SameTokens(OwnStep(w, blocked), w)
  {
    hide OwnStep, Held, Follows;
    OwnStepSlots(w, blocked);
    OwnStepPcs(w, blocked);
    FollowsHeld(w, OwnStep(w, blocked).pc);
  }

  lemma OwnStepOwned(s: Sys, i: nat, e: Env)
    requires s.Sys? && i < |s.ws| && OwnPc(s.ws[i].pc) && Owned(s)
    ensures WorkerStep(s, i, e).Sys? && Owned(WorkerStep(s, i, e))
  {
    hide OwnStep, Owned, SameTokens, Held, Local;
    OwnStepTokens(s.ws[i], s.blocked);
    Still(s, WorkerStep(s, i, e), i, OwnStep(s.ws[i], s.blocked));
  }

  lemma AfterOwned(s: Sys, i: nat, e: Env)
    requires s.Sys? && i < |s.ws| && s.ws[i].pc.After? && Owned(s)
    ensures WorkerStep(s, i, e).Sys? && Owned(WorkerStep(s, i, e))
  {
    hide Owned, Local;
    var After(id, dead) := s.ws[i].pc;
    Still(s, WorkerStep(s, i, e), i, Rebind(s.ws[i], id, dead, BindingOf(s.services, id) == i));
  }

  lemma Taken(w: Worker, job: nat, x: nat, k: Kind)
    requires w.ready == job != 0 && w.pc == GetCas(job)
    ensures InWorker(w.(pc := Begin(job), ready := 0), x, k) == InWorker(w, x, k)
  {
  }

  lemma GetOwned(s: Sys, i: nat, e: Env)
    requires s.Sys? && i < |s.ws| && s.ws[i].pc.GetCas? && GoodPc(s.ws[i].pc) && Owned(s)
    ensures WorkerStep(s, i, e).Sys? && Owned(WorkerStep(s, i, e))
  {
    hide Owned, InWorker, Expected, Local;
    var t, w := WorkerStep(s, i, e), s.ws[i];
    var job := w.pc.job;
    if w.ready == job && !e.fail {
      var v := w.(pc := Begin(job), ready := 0);
      forall x: nat, k: Kind ensures InWorker(v, x, k) == InWorker(w, x, k) {
        Taken(w, job, x, k);
      }
      ShiftKeepsOwned(s, t, i, v);
    } else {
      Still(s, t, i, w.(pc := Get));
    }
  }

  lemma Published(w: Worker, id: nat, pc: Pc, x: nat, k: Kind)
    requires w.done == 0 && id != 0 && Held(w.pc) == (id, Finished) && Held(pc) == (0, Ready)
    ensures InWorker(w.(pc := pc, done := id), x, k) == InWorker(w, x, k)
  {
  }

  lemma CompleteOwned(s: Sys, i: nat, id: nat, fail: bool, yes: Pc, no: Pc)
    requires s.Sys? && i < |s.ws| && id != 0 && Owned(s)
    requires Held(s.ws[i].pc) == Held(no) == (id, Finished) && Held(yes) == (0, Ready)
    ensures Owned(CompleteStep(s, i, id, fail, yes, no))
  {
    hide InWorker, Expected, Held, Local, Owned;
    var t, w := CompleteStep(s, i, id, fail, yes, no), s.ws[i];
    if w.done == 0 && !fail {
      var v := w.(pc := yes, done := id);
      forall x: nat, k: Kind ensures InWorker(v, x, k) == InWorker(w, x, k) {
        Published(w, id, yes, x, k);
      }
      ShiftKeepsOwned(s, t, i, v);
    } else {
      Still(s, t, i, w.(pc := no));
    }
  }

  lemma AcquireOwned(s: Sys, i: nat, fail: bool, yes: Pc, no: Pc)
    requires s.Sys? && i < |s.ws| && Held(s.ws[i].pc) == Held(yes) == Held(no) && Owned(s)
    ensures Owned(AcquireStep(s, i, fail, yes, no))
  {
    hide Owned, Held, Local;
    var w := s.ws[i].(pc := if s.owner == NONE && !fail then yes else no);
    Still(s, AcquireStep(s, i, fail, yes, no), i, w);
  }

  // Entering schedule_dispatch with empty hands.
  lemma DispatchOwned(s: Sys)
    requires s.Sys? && s.ws != [] && s.phase == Off && Owned(s)
    ensures Dispatch(s).Sys? && Owned(Dispatch(s))
  {
    hide Owned;
    assert s.ws == s.ws[0 := s.ws[0]];
    Still(s, Dispatch(s), 0, s.ws[0]);
  }

  lemma CompletingOwned(s: Sys, i: nat, e: Env)
    requires s.Sys? && i < |s.ws| && Control(s) && (s.phase == Off || s.owner != i) && Owned(s)
    requires s.ws[i].pc.Complete? || s.ws[i].pc.Complete2? || s.ws[i].pc.Complete3?
    ensures WorkerStep(s, i, e).Sys? && Owned(WorkerStep(s, i, e))
  {
    hide Owned, Control, CompleteStep, Dispatch;
    Facts(s, i);
    OffForOwner(s, i);
    var id := s.ws[i].pc.id;
    match s.ws[i].pc {
      case Complete(_) =>
        CompleteOwned(s, i, id, e.fail, Top, AcquireFor(id));
      case Complete2(_) =>
        CompleteOwned(s, i, id, e.fail, Serve(false), Redo(id));
        DispatchOwned(CompleteStep(s, i, id, e.fail, Serve(false), Redo(id)));
      case Complete3(_) =>
        var t := CompleteStep(s, i, id, e.fail, Serve(false), Complete3(id));
        CompleteOwned(s, i, id, e.fail, Serve(false), Complete3(id));
        if t.ws[i].pc.Serve? { DispatchOwned(t); }
    }
  }

  // A worker that owns the scheduler between two rounds finds no phase.
  lemma OffForOwner(s: Sys, i: nat)
    requires s.Sys? && i < |s.ws| && Control(s) && (s.phase == Off || s.owner != i)
    ensures OwnerPc(s.ws[i].pc) ==> s.phase == Off
  {
  }

  lemma AcquiringOwned(s: Sys, i: nat, e: Env)
    requires s.Sys? && i < |s.ws| && Control(s) && (s.phase == Off || s.owner != i) && Owned(s)
    requires s.ws[i].pc.AcquireFor? || s.ws[i].pc.Acquire?
    ensures WorkerStep(s, i, e).Sys? && Owned(WorkerStep(s, i, e))
  {
    hide Owned, Control, AcquireStep, Dispatch;
    Facts(s, i);
    match s.ws[i].pc {
      case AcquireFor(id) =>
        AcquireOwned(s, i, e.fail, Complete2(id), Complete(id));
      case Acquire(nojob) =>
        var t := AcquireStep(s, i, e.fail, Serve(true), CheckDone(nojob));
        AcquireOwned(s, i, e.fail, Serve(true), CheckDone(nojob));
        if t.ws[i].pc.Serve? { AcquireOff(s, i, e.fail, nojob); DispatchOwned(t); }
    }
  }

  lemma AcquireOff(s: Sys, i: nat, fail: bool, nojob: bool)
    requires s.Sys? && i < |s.ws| && Control(s) && AcquireStep(s, i, fail, Serve(true), CheckDone(nojob)).ws[i].pc.Serve?
    ensures s.phase == Off
  {
    hide Control;
    if s.owner == NONE { OwnerIsFree(s); }
  }

  // A worker moves to another point: what it holds there for what it held.
  lemma PcMoves(w: Worker, pc: Pc, x: nat, k: Kind)
    ensures InWorker(w.(pc := pc), x, k) + If(Held(w.pc) == (x, k) && x != 0) == InWorker(w, x, k) + If(Held(pc) == (x, k) && x != 0)
  {
    hide Held;
  }

  // One service changes status while its worker moves to another point.
  lemma StatusChange(s: Sys, t: Sys, i: nat, id: nat, from: Kind, to: Kind, w: Worker)
    requires s.Sys? && t.Sys? && i < |s.ws| && t.ws == s.ws[i := w] && w == s.ws[i].(pc := w.pc)
    requires t.schedule == s.schedule && t.phase == s.phase
    requires id in s.services && id in t.services && t.services == s.services[id := t.services[id]] && id != 0
    requires forall k :: Expected(s.services, id, k) == If(k == from) && Expected(t.services, id, k) == If(k == to)
    requires Held(s.ws[i].pc) == (id, from) && Held(w.pc) == (id, to) && Owned(s)
    ensures Owned(t)
  {
    hide Local, Held, Owned, InWorker;
    forall x: nat, k: Kind
      ensures InWorker(w, x, k) + If((x, k) == (id, from)) == InWorker(s.ws[i], x, k) + If((x, k) == (id, to))
    {
      PcMoves(s.ws[i], w.pc, x, k);
    }
    ShiftKeepsOwned(s, t, i, w);
  }

  predicate MayBeTaken(v: Service) {
    v.status == Schedule || (v.status == Dead && v.loss == Requeued)
  }

  // service_status_get sees SCHEDULE, or a dead service whose signal was lost:
  // the assertion before the job runs holds.
  lemma CheckOwned(s: Sys, i: nat, e: Env)
    requires s.Sys? && i < |s.ws| && Control(s) && Owned(s) && s.ws[i].pc.Check?
    ensures s.ws[i].pc.id in s.services && MayBeTaken(s.services[s.ws[i].pc.id])
    ensures WorkerStep(s, i, e).Sys? && Owned(WorkerStep(s, i, e))
  {
    hide Owned;
    var id := s.ws[i].pc.id;
    HeldIsOwned(s, i);
    if s.services[id].status == Schedule {
      StatusChange(s, WorkerStep(s, i, e), i, id, Ready, Active, s.ws[i].(pc := SchedModel.Run(id)));
    } else {
      StatusChange(s, WorkerStep(s, i, e), i, id, Ready, Finished, s.ws[i].(pc := After(id, false)));
    }
  }

  lemma YieldOwned(s: Sys, i: nat, e: Env)
    requires s.Sys? && i < |s.ws| && Control(s) && Owned(s) && s.ws[i].pc.Run? && e.event.Yield?
    ensures WorkerStep(s, i, e).Sys? && Owned(WorkerStep(s, i, e))
  {
    hide Owned;
    var id := s.ws[i].pc.id;
    HeldIsOwned(s, i);
    StatusChange(s, WorkerStep(s, i, e), i, id, Active, Finished, s.ws[i].(pc := After(id, false)));
  }

  lemma ExitOwned(s: Sys, i: nat, e: Env)
    requires s.Sys? && i < |s.ws| && Control(s) && Owned(s) && s.ws[i].pc.Run? && e.event.Exit? && s.ws[i].pc.id != ROOT
    ensures WorkerStep(s, i, e).Sys? && Owned(WorkerStep(s, i, e))
  {
    hide Owned;
    var id := s.ws[i].pc.id;
    HeldIsOwned(s, i);
    StatusChange(s, WorkerStep(s, i, e), i, id, Active, Finished, s.ws[i].(pc := After(id, true)));
  }

  lemma RootExitOwned(s: Sys, i: nat, e: Env)
    requires s.Sys? && i < |s.ws| && Control(s) && Owned(s) && s.ws[i].pc == SchedModel.Run(ROOT) && e.event.Exit?
    ensures WorkerStep(s, i, e).Sys? && Owned(WorkerStep(s, i, e))
  {
    hide Owned, Local, InWorker;
    HeldIsOwned(s, i);
    var w := s.ws[i].(pc := QuitAll(0));
    var t := s.(ws := s.ws[i := w], services := s.services[ROOT := s.services[ROOT].(status := Dead)]);
    forall x: nat, k: Kind ensures InWorker(w, x, k) + If((x, k) == (ROOT, Active)) == InWorker(s.ws[i], x, k) {
      PcMoves(s.ws[i], QuitAll(0), x, k);
    }
    assert GoodService(s.services[ROOT], |s.ws|) by { Facts(s, i); }
    ShiftKeepsOwned(s, t, i, w);
  }

  // Statuses that do not count may change freely.
  lemma Uncounted(s: Sys, t: Sys)
    requires s.Sys? && t.Sys? && Owned(s) && t == s.(services := t.services)
    requires forall x: nat, k: Kind :: Expected(t.services, x, k) == Expected(s.services, x, k)
    ensures Owned(t)
  {
    forall x: nat, k: Kind ensures Total(t, x, k) == Expected(t.services, x, k) {
      assert Total(s, x, k) == Expected(s.services, x, k);
    }
  }

  lemma EventOwned(s: Sys, i: nat, e: Env)
    requires s.Sys? && i < |s.ws| && Owned(s) && s.ws[i].pc.Run?
    requires AllowedEvent(s, s.ws[i].pc.id, e.event) && !e.event.Yield? && !e.event.Exit?
    ensures WorkerStep(s, i, e).Sys? && Owned(WorkerStep(s, i, e))
  {
    hide Owned;
    Uncounted(s, WorkerStep(s, i, e));
  }

  lemma WakeOwned(s: Sys, k: nat, w: Worker)
    requires s.Sys? && k < |s.ws| && SameTokens(w, s.ws[k]) && Owned(s)
    ensures Owned(With(s, k, w))
  {
    hide Owned, SameTokens, Local;
    Still(s, With(s, k, w), k, w);
  }

  lemma QuitterOwned(s: Sys, i: nat, k: nat, w: Worker, pc: Pc)
    requires s.Sys? && i < |s.ws| && k < |s.ws| && Owned(s) && SameTokens(w, s.ws[k]) && w.pc == s.ws[k].pc
    requires Held(pc) == Held(s.ws[i].pc)
    ensures Owned(Goto(With(s, k, w), i, pc))
  {
    hide Owned, Held;
    WakeOwned(s, k, w);
    var t := With(s, k, w);
    WakeOwned(t, i, t.ws[i].(pc := pc));
  }

  lemma QuittingOwned(s: Sys, i: nat, e: Env)
    requires s.Sys? && i < |s.ws| && Owned(s) && (s.ws[i].pc.QuitAll? || s.ws[i].pc.WakeAll?)
    ensures WorkerStep(s, i, e).Sys? && Owned(WorkerStep(s, i, e))
  {
    hide Owned;
    var k := s.ws[i].pc.k;
    if k >= |s.ws| {
      WakeOwned(s, i, if s.ws[i].pc.QuitAll? then s.ws[i].(pc := WakeAll(0)) else Leave(s.ws[i]));
    } else if s.ws[i].pc.QuitAll? {
      QuitterOwned(s, i, k, s.ws[k].(term := true), QuitAll(k + 1));
    } else if !s.ws[k].pc.Locked? {
      QuitterOwned(s, i, k, Wake(s.ws[k]), WakeAll(k + 1));
    }
  }

  // ----------------------------------------------- worker steps keep control

  // Worker i moves between points where it does not own the scheduler, or
  // stays at one where it does.
  lemma ControlKept(s: Sys, t: Sys, i: nat, w: Worker)
    requires s.Sys? && t.Sys? && Control(s) && i < |s.ws| && t.ws == s.ws[i := w] && t.size == s.size
    requires GoodPc(w.pc) && (OwnerPc(w.pc) <==> OwnerPc(s.ws[i].pc)) && (w.pc == s.ws[i].pc || !OwnerPc(w.pc))
    requires t.owner == s.owner && t.phase == s.phase && (s.owner == i ==> w.ready == s.ws[i].ready)
    requires GoodServices(t.services, |t.ws|) && |t.services| < t.size
    requires s.phase.Settle? ==> StatusOf(t.services, s.phase.jobs[0]) == Done
    ensures Control(t)
  {
    if s.phase != Off { assert GoodPhase(s.phase, s.ws[s.owner], s.services); }
  }

  lemma OwnStepPc(w: Worker, blocked: bool)
    requires OwnPc(w.pc) && GoodPc(w.pc)
    ensures var v := OwnStep(w, blocked);
      v.ready == w.ready && GoodPc(v.pc) && (OwnerPc(v.pc) <==> OwnerPc(w.pc)) && (v.pc == w.pc || !OwnerPc(v.pc))
  {
    hide OwnStep;
    OwnStepSlots(w, blocked);
    OwnStepPcs(w, blocked);
  }

  lemma KeptByOwn(s: Sys, i: nat, w: Worker)
    requires s.Sys? && Control(s) && i < |s.ws|
    requires GoodPc(w.pc) && (OwnerPc(w.pc) <==> OwnerPc(s.ws[i].pc)) && (w.pc == s.ws[i].pc || !OwnerPc(w.pc))
    requires s.owner == i ==> w.ready == s.ws[i].ready
    ensures Control(With(s, i, w))
  {
    ControlKept(s, With(s, i, w), i, w);
  }

  lemma Facts(s: Sys, i: nat)
    requires s.Sys? && Control(s) && i < |s.ws|
    ensures GoodPc(s.ws[i].pc) && (OwnerPc(s.ws[i].pc) <==> i == s.owner)
    ensures GoodServices(s.services, |s.ws|) && |s.services| < s.size
    ensures s.phase.Settle? ==> s.phase.jobs != [] && StatusOf(s.services, s.phase.jobs[0]) == Done
  {
    if s.phase != Off { assert GoodPhase(s.phase, s.ws[s.owner], s.services); }
  }

  lemma OwnStepControl(s: Sys, i: nat, e: Env)
    requires s.Sys? && i < |s.ws| && OwnPc(s.ws[i].pc) && Control(s)
    ensures WorkerStep(s, i, e).Sys? && Control(WorkerStep(s, i, e))
  {
    hide OwnStep, Control, GoodPc, OwnerPc;
    Facts(s, i);
    OwnStepPc(s.ws[i], s.blocked);
    KeptByOwn(s, i, OwnStep(s.ws[i], s.blocked));
  }

  // GetCas, After, and the failing or final compare-and-swap of Complete.
  lemma HandControl(s: Sys, i: nat, e: Env)
    requires s.Sys? && i < |s.ws| && Control(s)
    requires s.ws[i].pc.GetCas? || s.ws[i].pc.After? || s.ws[i].pc.Complete?
    ensures WorkerStep(s, i, e).Sys? && Control(WorkerStep(s, i, e))
  {
    hide Control;
    Facts(s, i);
    var w := s.ws[i];
    match w.pc {
      case GetCas(job) =>
        KeptByOwn(s, i, if w.ready == job && !e.fail then w.(pc := Begin(job), ready := 0) else w.(pc := Get));
      case After(id, dead) =>
        KeptByOwn(s, i, Rebind(w, id, dead, BindingOf(s.services, id) == i));
      case Complete(id) =>
        KeptByOwn(s, i, if w.done == 0 && !e.fail then w.(pc := Top, done := id) else w.(pc := AcquireFor(id)));
    }
  }

  // acquire_scheduler: at most one worker gets it.
  lemma TakesOver(s: Sys, t: Sys, i: nat, w: Worker)
    requires s.Sys? && t.Sys? && Control(s) && i < |s.ws| && s.owner == NONE && GoodPc(w.pc) && OwnerPc(w.pc)
    requires t == s.(ws := s.ws[i := w], owner := i, started := true, phase := t.phase)
    requires if t.phase == Off then !w.pc.Redo? && !w.pc.Serve? else t.phase.Collect? && w.pc.Serve?
    ensures Control(t)
  {
  }

  lemma AcquireControl(s: Sys, i: nat, e: Env)
    requires s.Sys? && i < |s.ws| && Control(s) && (s.ws[i].pc.AcquireFor? || s.ws[i].pc.Acquire?)
    ensures WorkerStep(s, i, e).Sys? && Control(WorkerStep(s, i, e))
  {
    hide Control;
    Facts(s, i);
    var w := s.ws[i];
    if s.owner == NONE && !e.fail {
      if w.pc.AcquireFor? {
        TakenAt(s, i, Complete2(w.pc.id), Off);
      } else {
        TakenAt(s, i, Serve(true), Collect(0, []));
      }
    } else {
      KeptByOwn(s, i, w.(pc := if w.pc.AcquireFor? then Complete(w.pc.id) else CheckDone(w.pc.nojob)));
    }
  }

  lemma TakenAt(s: Sys, i: nat, pc: Pc, phase: Phase)
    requires s.Sys? && Control(s) && i < |s.ws| && s.owner == NONE && GoodPc(pc) && OwnerPc(pc)
    requires if phase == Off then !pc.Redo? && !pc.Serve? else phase.Collect? && pc.Serve?
    ensures s.phase == Off && Control(s.(ws := s.ws[i := s.ws[i].(pc := pc)], owner := i, started := true, phase := phase))
  {
    hide Control;
    OwnerIsFree(s);
    var w := s.ws[i].(pc := pc);
    TakesOver(s, s.(ws := s.ws[i := w], owner := i, started := true, phase := phase), i, w);
  }

  lemma OwnerIsFree(s: Sys)
    requires s.Sys? && Control(s) && s.owner == NONE
    ensures s.phase == Off
  {
  }

  // The owner moves on, into a phase of the scheduler or between two.
  lemma OwnerMoves(s: Sys, t: Sys, i: nat, w: Worker)
    requires s.Sys? && t.Sys? && Control(s) && i < |s.ws| && s.owner == i
    requires t == s.(ws := s.ws[i := w], phase := t.phase)
    requires GoodPc(w.pc) && OwnerPc(w.pc)
    requires if t.phase == Off then !w.pc.Redo? && !w.pc.Serve? else GoodPhase(t.phase, w, s.services)
    ensures Control(t)
  {
  }

  // The owner publishes its service, or fails to, and enters the scheduler.
  lemma EntersControl(s: Sys, i: nat, w: Worker)
    requires s.Sys? && i < |s.ws| && Control(s) && s.owner == i && GoodPc(w.pc) && (w.pc.Serve? || w.pc.Redo?)
    ensures Control(s.(ws := s.ws[i := w], phase := Collect(0, [])))
  {
    hide Control;
    OwnerMoves(s, s.(ws := s.ws[i := w], phase := Collect(0, [])), i, w);
  }

  lemma Complete2Control(s: Sys, i: nat, e: Env)
    requires s.Sys? && i < |s.ws| && Control(s) && s.ws[i].pc.Complete2?
    ensures WorkerStep(s, i, e).Sys? && Control(WorkerStep(s, i, e))
  {
    hide Control;
    Facts(s, i);
    var w := s.ws[i];
    EntersControl(s, i, if w.done == 0 && !e.fail then w.(pc := Serve(false), done := w.pc.id) else w.(pc := Redo(w.pc.id)));
  }

  lemma Complete3Control(s: Sys, i: nat, e: Env)
    requires s.Sys? && i < |s.ws| && Control(s) && s.ws[i].pc.Complete3?
    ensures WorkerStep(s, i, e).Sys? && Control(WorkerStep(s, i, e))
  {
    hide Control;
    Facts(s, i);
    var w := s.ws[i];
    if w.done == 0 && !e.fail {
      EntersControl(s, i, w.(pc := Serve(false), done := w.pc.id));
    } else {
      assert s.ws[i := w] == s.ws;
    }
  }

  lemma Statuses(s: Sys, t: Sys, i: nat, id: nat, w: Worker)
    requires s.Sys? && t.Sys? && Control(s) && i < |s.ws| && t == s.(ws := s.ws[i := w], services := t.services)
    requires id in s.services && id in t.services && t.services == s.services[id := t.services[id]]
    requires s.services[id].status != Done
    requires GoodService(t.services[id], |s.ws|)
    requires w.ready == s.ws[i].ready && GoodPc(w.pc) && !OwnerPc(w.pc) && !OwnerPc(s.ws[i].pc)
    ensures Control(t)
  {
    Facts(s, i);
    assert t.services.Keys == s.services.Keys;
    SameSize(s.services, t.services);
    ControlKept(s, t, i, w);
  }

  lemma SameSize(m: Services, n: Services)
    requires m.Keys == n.Keys
    ensures |m| == |n|
  {
    assert |m| == |m.Keys| && |n| == |n.Keys|;
  }

  lemma CheckControl(s: Sys, i: nat, e: Env)
    requires s.Sys? && i < |s.ws| && Control(s) && Owned(s) && s.ws[i].pc.Check?
    ensures WorkerStep(s, i, e).Sys? && Control(WorkerStep(s, i, e))
  {
    hide Owned, Control;
    Facts(s, i);
    CheckOwned(s, i, e);
    var id := s.ws[i].pc.id;
    var pc := if s.services[id].status == Schedule then SchedModel.Run(id) else After(id, false);
    Statuses(s, WorkerStep(s, i, e), i, id, s.ws[i].(pc := pc));
  }

  lemma EndControl(s: Sys, i: nat, e: Env)
    requires s.Sys? && i < |s.ws| && Control(s) && Owned(s) && s.ws[i].pc.Run? && (e.event.Yield? || e.event.Exit?)
    ensures WorkerStep(s, i, e).Sys? && Control(WorkerStep(s, i, e))
  {
    hide Owned, Control;
    Facts(s, i);
    HeldIsOwned(s, i);
    var id := s.ws[i].pc.id;
    assert GoodService(s.services[id], |s.ws|);
    TwoUpdates(s.services, id);
    if e.event.Yield? {
      EndsAs(s, i, id, Done, false, After(id, false));
    } else if id == ROOT {
      EndsAs(s, i, id, Dead, false, QuitAll(0));
    } else {
      EndsAs(s, i, id, Dead, true, After(id, true));
    }
  }

  lemma TwoUpdates(m: Services, id: nat)
    requires id in m
    ensures var dead := SetStatus(m, id, Dead);
      dead[id := dead[id].(signal := true)] == m[id := m[id].(status := Dead, signal := true)]
  {
  }

  // The service running at worker i gets another status.
  lemma EndsAs(s: Sys, i: nat, id: nat, status: Status, signal: bool, pc: Pc)
    requires s.Sys? && i < |s.ws| && Control(s) && s.ws[i].pc == SchedModel.Run(id) && id in s.services
    requires s.services[id].status == Running && (signal ==> status == Dead) && GoodPc(pc) && !OwnerPc(pc)
    ensures var v := s.services[id].(status := status, signal := signal);
      Control(s.(ws := s.ws[i := s.ws[i].(pc := pc)], services := s.services[id := v]))
  {
    hide Control;
    Facts(s, i);
    assert GoodService(s.services[id], |s.ws|);
    var t := s.(ws := s.ws[i := s.ws[i].(pc := pc)], services := s.services[id := s.services[id].(status := status, signal := signal)]);
    Statuses(s, t, i, id, s.ws[i].(pc := pc));
  }

  lemma EventControl(s: Sys, i: nat, e: Env)
    requires s.Sys? && i < |s.ws| && Control(s) && Owned(s) && s.ws[i].pc.Run?
    requires AllowedEvent(s, s.ws[i].pc.id, e.event) && !e.event.Yield? && !e.event.Exit?
    ensures WorkerStep(s, i, e).Sys? && Control(WorkerStep(s, i, e))
  {
    hide Owned, Control;
    Facts(s, i);
    HeldIsOwned(s, i);
    var m := WorkerStep(s, i, e).services;
    EventServices(s, i, e);
    KeepsServices(s, i, m);
  }

  lemma EventServices(s: Sys, i: nat, e: Env)
    requires s.Sys? && i < |s.ws| && s.ws[i].pc.Run? && GoodServices(s.services, |s.ws|)
    requires AllowedEvent(s, s.ws[i].pc.id, e.event) && !e.event.Yield? && !e.event.Exit?
    ensures var m := WorkerStep(s, i, e).services;
      && WorkerStep(s, i, e) == s.(services := m) && m.Keys <= s.services.Keys && GoodServices(m, |s.ws|)
      && forall x | x in s.services && s.services[x].status == Done && x != s.ws[i].pc.id :: x in m && m[x].status == Done
  {
  }

  // Only services change, and no finished one.
  lemma KeepsServices(s: Sys, i: nat, m: Services)
    requires s.Sys? && i < |s.ws| && Control(s) && m.Keys <= s.services.Keys && GoodServices(m, |s.ws|)
    requires forall x | x in s.services && s.services[x].status == Done :: x in m && m[x].status == Done
    ensures Control(s.(services := m))
  {
    hide Control;
    Facts(s, i);
    assert s.ws == s.ws[i := s.ws[i]];
    FewerServices(s.services, m);
    ControlKept(s, s.(services := m), i, s.ws[i]);
  }

  lemma FewerServices(m: Services, n: Services)
    requires n.Keys <= m.Keys
    ensures |n| <= |m|
  {
    SubsetSize(n.Keys, m.Keys);
    assert |m| == |m.Keys| && |n| == |n.Keys|;
  }

  lemma QuitControl(s: Sys, i: nat, k: nat, w: Worker, pc: Pc)
    requires s.Sys? && i < |s.ws| && k < |s.ws| && Control(s) && !OwnerPc(s.ws[i].pc) && !OwnerPc(pc) && GoodPc(pc)
    requires w.pc == s.ws[k].pc && w.ready == s.ws[k].ready
    ensures Control(Goto(With(s, k, w), i, pc))
  {
    hide Control;
    Facts(s, k);
    KeptByOwn(s, k, w);
    var t := With(s, k, w);
    KeptByOwn(t, i, t.ws[i].(pc := pc));
  }

  lemma QuittingControl(s: Sys, i: nat, e: Env)
    requires s.Sys? && i < |s.ws| && Control(s) && (s.ws[i].pc.QuitAll? || s.ws[i].pc.WakeAll?)
    ensures WorkerStep(s, i, e).Sys? && Control(WorkerStep(s, i, e))
  {
    hide Control;
    var k := s.ws[i].pc.k;
    if s.ws[i].pc.QuitAll? && k < |s.ws| {
      QuitControl(s, i, k, s.ws[k].(term := true), QuitAll(k + 1));
    } else if s.ws[i].pc.WakeAll? && k < |s.ws| && !s.ws[k].pc.Locked? {
      QuitControl(s, i, k, Wake(s.ws[k]), WakeAll(k + 1));
    } else if k >= |s.ws| {
      Facts(s, i);
      KeptByOwn(s, i, if s.ws[i].pc.QuitAll? then s.ws[i].(pc := WakeAll(0)) else Leave(s.ws[i]));
    }
  }

  lemma Unbroken(s: Sys, i: nat, e: Env)
    requires s.Sys? && i < |s.ws| && !s.ws[i].pc.Check?
    ensures WorkerStep(s, i, e).Sys?
  {
  }

  lemma WorkerKeeps(s: Sys, i: nat, e: Env)
    requires s.Sys? && i < |s.ws| && Control(s) && Owned(s) && Allowed(s, i, e) && (s.phase == Off || s.owner != i)
    ensures WorkerStep(s, i, e).Sys? && Control(WorkerStep(s, i, e)) && Owned(WorkerStep(s, i, e))
  {
    hide Control, Owned, WorkerStep, AllowedEvent;
    Facts(s, i);
    if !s.ws[i].pc.Check? { Unbroken(s, i, e); }
    match s.ws[i].pc {
      case GetCas(_) => GetOwned(s, i, e); HandControl(s, i, e);
      case Check(_) => CheckOwned(s, i, e); CheckControl(s, i, e);
      case Run(id) =>
        if e.event.Yield? {
          YieldOwned(s, i, e); EndControl(s, i, e);
        } else if e.event.Exit? {
          if id == ROOT { RootExitOwned(s, i, e); } else { ExitOwned(s, i, e); }
          EndControl(s, i, e);
        } else {
          EventOwned(s, i, e); EventControl(s, i, e);
        }
      case After(_, _) => AfterOwned(s, i, e); HandControl(s, i, e);
      case Complete(_) => CompletingOwned(s, i, e); HandControl(s, i, e);
      case Complete2(_) => CompletingOwned(s, i, e); Complete2Control(s, i, e);
      case Complete3(_) => CompletingOwned(s, i, e); Complete3Control(s, i, e);
      case AcquireFor(_) => AcquiringOwned(s, i, e); AcquireControl(s, i, e);
      case Acquire(_) => AcquiringOwned(s, i, e); AcquireControl(s, i, e);
      case QuitAll(_) => QuittingOwned(s, i, e); QuittingControl(s, i, e);
      case WakeAll(_) => QuittingOwned(s, i, e); QuittingControl(s, i, e);
      case _ => OwnStepOwned(s, i, e); OwnStepControl(s, i, e);
    }
  }
}
