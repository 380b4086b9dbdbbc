// The scheduler's own steps keep every service in exactly one place, and its
// assertions hold.
module SchedDispatch {
  import opened SchedModel
  import opened SchedOwner

  // ------------------------------------------------------ room in the queue

  lemma {:induction false} DistinctFit(q: seq<nat>, all: set<nat>)
    requires forall y :: multiset(q)[y] <= 1
    requires forall y | y in q :: y in all
    ensures |q| <= |all|
  {
    if q != [] {
      assert q == [q[0]] + q[1..];
      assert multiset(q)[q[0]] == 1 + multiset(q[1..])[q[0]];
      forall y ensures multiset(q[1..])[y] <= 1 { assert multiset(q)[y] >= multiset(q[1..])[y]; }
      DistinctFit(q[1..], all - {q[0]});
    }
  }

  lemma QueueCount(s: Sys, y: nat)
    requires s.Sys? && Owned(s)
    ensures multiset(s.schedule)[y] <= Expected(s.services, y, Ready)
  {
    assert Total(s, y, Ready) == Expected(s.services, y, Ready);
  }

  // schedule_back always succeeds.
  lemma Room(s: Sys, x: nat)
    requires s.Sys? && Control(s) && Owned(s) && x in s.services && Expected(s.services, x, Ready) == 0
    ensures |s.schedule| + 1 < s.size
  {
    hide Owned, Control;
    Facts2(s);
    forall y ensures multiset(s.schedule)[y] <= 1 && (y in s.schedule ==> y in s.services.Keys - {x}) {
      if y >= 0 { QueueCount(s, y); }
    }
    DistinctFit(s.schedule, s.services.Keys - {x});
    assert |s.services.Keys - {x}| == |s.services| - 1 by { assert |s.services| == |s.services.Keys|; }
  }

  lemma Facts2(s: Sys)
    requires s.Sys? && Control(s)
    ensures GoodServices(s.services, |s.ws|) && |s.services| < s.size && s.ws != []
    ensures s.phase != Off ==> 0 <= s.owner < |s.ws| && GoodPhase(s.phase, s.ws[s.owner], s.services)
    ensures s.phase != Off ==> OwnerPc(s.ws[s.owner].pc) && GoodPc(s.ws[s.owner].pc)
  {
  }

  // --------------------------------------------------------- control, again

  // A step of the scheduler that changes worker k, but no program counter.
  lemma PhaseMoves(s: Sys, t: Sys, k: nat, w: Worker)
    requires s.Sys? && t.Sys? && Control(s) && s.phase != Off && k < |s.ws| && t.ws == s.ws[k := w] && w.pc == s.ws[k].pc
    requires t.owner == s.owner && t.size == s.size && t.phase != Off
    requires GoodServices(t.services, |t.ws|) && |t.services| < t.size
    requires GoodPhase(t.phase, t.ws[t.owner], t.services)
    ensures Control(t)
  {
  }

  // Phases after which the scheduler is still inside schedule_dispatch.
  predicate Dispatching(p: Phase) {
    !p.Off? && !TailPhase(p) && !p.Settle? && !p.PendingCas?
  }

  lemma AnyPhase(s: Sys, p: Phase, w: Worker, m: Services)
    requires s.Sys? && Control(s) && s.phase != Off && Dispatching(p) && w.pc == s.ws[s.owner].pc
    ensures GoodPhase(p, w, m)
  {
    Facts2(s);
  }

  lemma StaysInDispatch(s: Sys, t: Sys, k: nat, w: Worker)
    requires s.Sys? && t.Sys? && Control(s) && s.phase != Off && k < |s.ws| && t.ws == s.ws[k := w] && w.pc == s.ws[k].pc
    requires t.owner == s.owner && t.size == s.size && t.services == s.services && Dispatching(t.phase)
    ensures Control(t)
  {
    Facts2(s);
    AnyPhase(s, t.phase, t.ws[t.owner], t.services);
  }

  // -------------------------------------------------------- collect and steal

  // The scheduler takes an id out of slot k into its array.
  lemma IntoArray(jobs: seq<nat>, id: nat, x: nat)
    ensures multiset(jobs + [id])[x] == multiset(jobs)[x] + If(x == id)
  {
  }

  lemma CollectKeeps(s: Sys, e: Env)
    requires s.Sys? && Control(s) && Owned(s) && s.phase.Collect?
    ensures SchedulerStep(s, e).Sys? && Control(SchedulerStep(s, e)) && Owned(SchedulerStep(s, e))
  {
    hide Control, Owned;
    Facts2(s);
    var Collect(k, jobs) := s.phase;
    if k >= |s.ws| {
      CollectsNothing(s, Route(jobs));
    } else if s.ws[k].done == 0 {
      CollectsNothing(s, Collect(k + 1, jobs));
    } else {
      Collects(s, k, jobs);
    }
  }

  lemma CollectsNothing(s: Sys, p: Phase)
    requires s.Sys? && Control(s) && Owned(s) && s.phase.Collect? && (p.Route? || p.Collect?) && Local(p) == Local(s.phase)
    ensures Control(s.(phase := p)) && Owned(s.(phase := p))
  {
    hide Control, Owned;
    Facts2(s);
    var t := s.(phase := p);
    assert t.ws == s.ws[0 := s.ws[0]];
    StaysInDispatch(s, t, 0, s.ws[0]);
    Still(s, t, 0, s.ws[0]);
  }

  lemma Collects(s: Sys, k: nat, jobs: seq<nat>)
    requires s.Sys? && Control(s) && Owned(s) && s.phase == Collect(k, jobs) && k < |s.ws| && s.ws[k].done != 0
    ensures var t := s.(ws := s.ws[k := s.ws[k].(done := 0)], phase := Collect(k + 1, jobs + [s.ws[k].done]));
      Control(t) && Owned(t)
  {
    hide Control, Owned, InWorker;
    var w := s.ws[k].(done := 0);
    var t := s.(ws := s.ws[k := w], phase := Collect(k + 1, jobs + [s.ws[k].done]));
    StaysInDispatch(s, t, k, w);
    forall x: nat, kind: Kind ensures Places(w, t.phase, t.schedule, x, kind) == Places(s.ws[k], s.phase, s.schedule, x, kind) {
      TakenDone(s.ws[k], x, kind);
      IntoArray(jobs, s.ws[k].done, x);
    }
    ShiftKeepsOwned(s, t, k, w);
  }

  lemma TakenDone(w: Worker, x: nat, kind: Kind)
    requires w.done != 0
    ensures InWorker(w.(done := 0), x, kind) + If(kind == Finished && x == w.done) == InWorker(w, x, kind)
  {
    hide Held;
  }

  // A step that changes only the phase, with the same ids in hand.
  lemma PhaseOnly(s: Sys, t: Sys)
    requires s.Sys? && Control(s) && Owned(s) && s.phase != Off && t.Sys? && t == s.(phase := t.phase) && t.phase != Off
    requires Local(t.phase) == Local(s.phase) || (Local(t.phase).0 == Local(s.phase).0 == [])
    requires GoodPhase(t.phase, s.ws[s.owner], s.services)
    ensures Control(t) && Owned(t)
  {
    hide Control, Owned;
    Facts2(s);
    assert t.ws == s.ws[0 := s.ws[0]];
    PhaseMoves(s, t, 0, s.ws[0]);
    Still(s, t, 0, s.ws[0]);
  }

  // A step that changes worker k and the ids in hand.
  lemma SlotMoves(s: Sys, t: Sys, k: nat, w: Worker)
    requires s.Sys? && t.Sys? && Control(s) && Owned(s) && s.phase != Off && k < |s.ws|
    requires t == s.(ws := s.ws[k := w], phase := t.phase, blocked := t.blocked) && w.pc == s.ws[k].pc && t.phase != Off
    requires GoodPhase(t.phase, t.ws[s.owner], s.services)
    requires forall x: nat, kind: Kind ::
      InWorker(w, x, kind) + InLocal(t.phase, x, kind) == InWorker(s.ws[k], x, kind) + InLocal(s.phase, x, kind)
    ensures Control(t) && Owned(t)
  {
    hide Control, Owned, InWorker, InLocal, GoodPhase;
    Facts2(s);
    PhaseMoves(s, t, k, w);
    ShiftKeepsOwned(s, t, k, w);
  }

  // A ready slot is emptied into the scheduler's hands.
  lemma Robbed(w: Worker, x: nat, kind: Kind)
    requires w.ready != 0
    ensures InWorker(w.(ready := 0), x, kind) + If(kind == Ready && x == w.ready) == InWorker(w, x, kind)
  {
    hide Held;
  }

  // An empty ready slot is filled from the scheduler's hands.
  lemma Given(w: Worker, job: nat, x: nat, kind: Kind)
    requires w.ready == 0 && job != 0
    ensures InWorker(w.(ready := job), x, kind) == InWorker(w, x, kind) + If(kind == Ready && x == job)
  {
    hide Held;
  }

  // The head of the binding queue becomes ready.
  lemma Promoted(w: Worker, x: nat, kind: Kind)
    requires w.ready == 0 && w.queue != [] && w.queue[0] != 0
    ensures InWorker(TakeBound(w), x, kind) == InWorker(w, x, kind)
  {
    hide Held;
    CountTail(w.queue, x);
  }

  lemma Enqueued(w: Worker, job: nat, x: nat, kind: Kind)
    ensures InWorker(w.(queue := w.queue + [job]), x, kind) == InWorker(w, x, kind) + If(kind == Ready && x == job)
  {
    hide Held;
  }

  lemma PendingCasKeeps(s: Sys, e: Env)
    requires s.Sys? && Control(s) && Owned(s) && s.phase.PendingCas?
    ensures SchedulerStep(s, e).Sys? && Control(SchedulerStep(s, e)) && Owned(SchedulerStep(s, e))
  {
    hide Control, Owned;
    Facts2(s);
    var PendingCas(k, job, jobs, from) := s.phase;
    if k < |s.ws| && s.ws[k].ready == job && !e.fail {
      RobbedInto(s, k, Pending(k + 1, jobs + [job], from + [k]));
    } else {
      PhaseOnly(s, s.(phase := Pending(k + 1, jobs, from)));
    }
  }

  // Worker k's job goes to the scheduler's hands.
  lemma RobbedInto(s: Sys, k: nat, p: Phase)
    requires s.Sys? && Control(s) && Owned(s) && s.phase != Off && k < |s.ws| && s.ws[k].ready != 0
    requires Local(p).1 == Ready && (Local(s.phase).1 == Ready || Local(s.phase).0 == [])
    requires Local(p).0 == Local(s.phase).0 + [s.ws[k].ready] && p != Off
    requires p.Pending? || (p == OwnStore(s.ws[k].ready) && TailPhase(s.phase) && s.ws[s.owner].ready == 0)
    ensures var t := s.(ws := s.ws[k := s.ws[k].(ready := 0)], phase := p); Control(t) && Owned(t)
  {
    hide Control, Owned, InWorker, Local;
    Facts2(s);
    var w := s.ws[k].(ready := 0);
    forall x: nat, kind: Kind
      ensures InWorker(w, x, kind) + InLocal(p, x, kind) == InWorker(s.ws[k], x, kind) + InLocal(s.phase, x, kind)
    {
      Robbed(s.ws[k], x, kind);
      IntoArray(Local(s.phase).0, s.ws[k].ready, x);
    }
    SlotMoves(s, s.(ws := s.ws[k := w], phase := p), k, w);
  }

  lemma PendingKeeps(s: Sys, e: Env)
    requires s.Sys? && Control(s) && Owned(s) && s.phase.Pending?
    ensures SchedulerStep(s, e).Sys? && Control(SchedulerStep(s, e)) && Owned(SchedulerStep(s, e))
  {
    hide Control, Owned;
    Facts2(s);
    var Pending(k, jobs, from) := s.phase;
    if k >= |s.ws| {
      PhaseOnly(s, s.(phase := Count(0, 0, jobs, from)));
    } else if e.flag && s.ws[k].ready != 0 && BindingOf(s.services, s.ws[k].ready) != k {
      PhaseOnly(s, s.(phase := PendingCas(k, s.ws[k].ready, jobs, from)));
    } else {
      PhaseOnly(s, s.(phase := Pending(k + 1, jobs, from)));
    }
  }

  // Null ids are in no queue.
  lemma NotNull(s: Sys, k: nat)
    requires s.Sys? && Control(s) && Owned(s) && k < |s.ws| && s.ws[k].queue != []
    ensures s.ws[k].queue[0] != 0
  {
    hide Control, Owned;
    Facts2(s);
    BoundIsOwned(s, k, s.ws[k].queue[0]);
  }

  // worker_wakeup moves nothing.
  lemma WakeKeeps(s: Sys, t: Sys, k: nat)
    requires s.Sys? && Control(s) && Owned(s) && s.phase != Off && k < |s.ws| && t.Sys?
    requires t == s.(ws := s.ws[k := Wake(s.ws[k])], phase := t.phase) && t.phase != Off
    requires Local(t.phase) == Local(s.phase) && Dispatching(t.phase)
    ensures Control(t) && Owned(t)
  {
    hide Control, Owned, InWorker;
    Facts2(s);
    StaysInDispatch(s, t, k, Wake(s.ws[k]));
    Still(s, t, k, Wake(s.ws[k]));
  }

  lemma CountKeeps(s: Sys, e: Env)
    requires s.Sys? && Control(s) && Owned(s) && s.phase.Count?
    ensures var t := SchedulerStep(s, e); t.Aborted? || (t.Sys? && Control(t) && Owned(t))
  {
    hide Control, Owned, TakeBound;
    Facts2(s);
    var Count(k, free, jobs, from) := s.phase;
    if k >= |s.ws| {
      if free >= |jobs| { PhaseOnly(s, s.(phase := Prepare(free - |jobs|, jobs))); }
    } else if s.ws[k].ready != 0 {
      PhaseOnly(s, s.(phase := Count(k + 1, free, jobs, from)));
    } else if s.ws[k].queue == [] {
      PhaseOnly(s, s.(phase := Count(k + 1, free + 1, jobs, from)));
    } else {
      PromotedAt(s, k, CountWake(k, free, jobs, from), true);
    }
  }

  // The head of worker k's binding queue becomes its job.
  lemma PromotedAt(s: Sys, k: nat, p: Phase, blocked: bool)
    requires s.Sys? && Control(s) && Owned(s) && s.phase != Off && k < |s.ws| && s.ws[k].ready == 0 && s.ws[k].queue != []
    requires Local(p) == Local(s.phase) && Dispatching(p)
    ensures var t := s.(ws := s.ws[k := TakeBound(s.ws[k])], phase := p, blocked := blocked); Control(t) && Owned(t)
  {
    hide Control, Owned, InWorker, TakeBound, Local;
    Facts2(s);
    NotNull(s, k);
    var w := TakeBound(s.ws[k]);
    var t := s.(ws := s.ws[k := w], phase := p, blocked := blocked);
    BoundPc(s.ws[k]);
    SameLocal(s.phase, p);
    forall x: nat, kind: Kind ensures InWorker(w, x, kind) == InWorker(s.ws[k], x, kind) {
      Promoted(s.ws[k], x, kind);
    }
    AnyPhase(s, p, t.ws[s.owner], t.services);
    SlotMoves(s, t, k, w);
  }

  lemma WakingKeeps(s: Sys, e: Env)
    requires s.Sys? && Control(s) && Owned(s) && (s.phase.CountWake? || s.phase.PrepareWake? || s.phase.AssignWake?)
    ensures SchedulerStep(s, e).Sys? && Control(SchedulerStep(s, e)) && Owned(SchedulerStep(s, e))
  {
    hide Control, Owned;
    Facts2(s);
    var k := s.phase.k;
    if k < |s.ws| && !s.ws[k].pc.Locked? { WakeKeeps(s, SchedulerStep(s, e), k); }
  }

  lemma BoundPc(w: Worker)
    requires w.queue != []
    ensures TakeBound(w).pc == w.pc
  {
  }

  lemma AssignJob(s: Sys, t: Sys, k: nat, phase: Phase)
    requires s.Sys? && Control(s) && Owned(s) && s.phase.Assign? && k < |s.ws| && s.ws[k].ready == 0 && s.phase.prep != []
    requires phase == AssignWake(k, s.phase.busy, s.phase.bound, s.phase.prep[1..])
    requires t == s.(ws := s.ws[k := s.ws[k].(ready := s.phase.prep[0])], phase := phase)
    ensures Control(t) && Owned(t)
  {
    hide Control, Owned, InWorker;
    Facts2(s);
    var prep := s.phase.prep;
    var w := s.ws[k].(ready := prep[0]);
    LocalIsOwned(s, prep[0]);
    forall x: nat, kind: Kind
      ensures InWorker(w, x, kind) + InLocal(t.phase, x, kind) == InWorker(s.ws[k], x, kind) + InLocal(s.phase, x, kind)
    {
      Given(s.ws[k], prep[0], x, kind);
      CountTail(prep, x);
    }
    SlotMoves(s, t, k, w);
  }

  // A try finds no slot, or there is nothing left to place.
  lemma AssignPasses(s: Sys, p: Phase)
    requires s.Sys? && Control(s) && Owned(s) && s.phase.Assign? && Local(p) == Local(s.phase) && p.Assign?
    ensures Control(s.(phase := p)) && Owned(s.(phase := p))
    ensures s.phase.prep == [] ==> Control(s.(phase := Trigger)) && Owned(s.(phase := Trigger))
  {
    hide Control, Owned;
    Facts2(s);
    PhaseOnly(s, s.(phase := p));
    if s.phase.prep == [] { PhaseOnly(s, s.(phase := Trigger)); }
  }

  lemma AssignKeeps(s: Sys, e: Env)
    requires s.Sys? && Control(s) && Owned(s) && s.phase.Assign?
    ensures var t := SchedulerStep(s, e); t.Sys? ==> Control(t) && Owned(t)
  {
    hide Control, Owned, InWorker, TakeBound;
    Facts2(s);
    var Assign(k, busy, bound, prep) := s.phase;
    if prep == [] {
      AssignPasses(s, s.phase);
    } else if k >= |s.ws| {
      AssignPasses(s, Assign(0, true, bound || busy, prep));
    } else if (busy || e.flag) && (s.ws[k].binding == 0 || bound) && s.ws[k].ready == 0 {
      if s.ws[k].queue != [] {
        PromotedAt(s, k, AssignWake(k, busy, bound, prep), s.blocked);
      } else {
        AssignJob(s, s.(ws := s.ws[k := s.ws[k].(ready := prep[0])], phase := AssignWake(k, busy, bound, prep[1..])), k,
                  AssignWake(k, busy, bound, prep[1..]));
      }
    } else {
      AssignPasses(s, Assign(k + 1, busy, bound, prep));
    }
  }

  lemma TriggerKeeps(s: Sys, e: Env)
    requires s.Sys? && Control(s) && Owned(s) && s.phase.Trigger?
    ensures SchedulerStep(s, e).Sys? && Control(SchedulerStep(s, e)) && Owned(SchedulerStep(s, e))
  {
    hide Owned, Control;
    Facts2(s);
    var i := s.owner;
    if s.ws[i].pc.Redo? {
      LeavesPhase(s, i, Complete3(s.ws[i].pc.id), s.blocked && e.flag);
    } else {
      var t := s.(blocked := s.blocked && e.flag, phase := HasJob);
      assert t.ws == s.ws[0 := s.ws[0]];
      PhaseMoves(s, t, 0, s.ws[0]);
      Still(s, t, 0, s.ws[0]);
    }
  }

  // The owner is done with schedule_dispatch and goes on at a point of its own.
  lemma LeavesPhase(s: Sys, i: nat, pc: Pc, blocked: bool)
    requires s.Sys? && Control(s) && Owned(s) && s.phase != Off && s.owner == i && i < |s.ws| && Local(s.phase).0 == []
    requires Held(pc) == Held(s.ws[i].pc) && GoodPc(pc) && (pc.Complete3? || pc.Top? || pc.CheckDone?)
    ensures var t := s.(ws := s.ws[i := s.ws[i].(pc := pc)], phase := Off, blocked := blocked,
                        owner := if OwnerPc(pc) then i else NONE);
      Control(t) && Owned(t)
  {
    hide Owned;
    var w := s.ws[i].(pc := pc);
    var t := s.(ws := s.ws[i := w], phase := Off, blocked := blocked, owner := if OwnerPc(pc) then i else NONE);
    assert Control(t);
    LeavesOwned(s, t, i, w);
  }

  lemma LeavesOwned(s: Sys, t: Sys, i: nat, w: Worker)
    requires s.Sys? && t.Sys? && Owned(s) && i < |s.ws| && Local(s.phase).0 == [] && t.phase == Off
    requires w == s.ws[i].(pc := w.pc) && Held(w.pc) == Held(s.ws[i].pc)
    requires t == s.(ws := s.ws[i := w], phase := Off, blocked := t.blocked, owner := t.owner)
    ensures Owned(t)
  {
    hide Owned, Held;
    Still(s, t, i, w);
  }

  lemma OwnCasKeeps(s: Sys, e: Env)
    requires s.Sys? && Control(s) && Owned(s) && s.phase.OwnCas?
    ensures SchedulerStep(s, e).Sys? && Control(SchedulerStep(s, e)) && Owned(SchedulerStep(s, e))
  {
    hide Control, Owned;
    Facts2(s);
    var OwnCas(k, job) := s.phase;
    if k < |s.ws| && s.ws[k].ready == job && !e.fail {
      RobbedInto(s, k, OwnStore(job));
    } else {
      PhaseOnly(s, s.(phase := OwnSteal(k + 1)));
    }
  }

  lemma OwnStoreKeeps(s: Sys, e: Env)
    requires s.Sys? && Control(s) && Owned(s) && s.phase.OwnStore?
    ensures SchedulerStep(s, e).Sys? && Control(SchedulerStep(s, e)) && Owned(SchedulerStep(s, e))
  {
    hide Control, Owned, InWorker;
    Facts2(s);
    var k, job := s.owner, s.phase.job;
    var w := s.ws[k].(ready := job);
    var t := s.(ws := s.ws[k := w], phase := Release(false));
    forall x: nat, kind: Kind
      ensures InWorker(w, x, kind) + InLocal(t.phase, x, kind) == InWorker(s.ws[k], x, kind) + InLocal(s.phase, x, kind)
    {
      Given(s.ws[k], job, x, kind);
      assert multiset([job])[x] == If(x == job);
    }
    SlotMoves(s, t, k, w);
  }

  lemma TailKeeps(s: Sys, e: Env)
    requires s.Sys? && Control(s) && Owned(s) && (s.phase.HasJob? || s.phase.OwnSteal?)
    ensures SchedulerStep(s, e).Sys? && Control(SchedulerStep(s, e)) && Owned(SchedulerStep(s, e))
  {
    hide Control, Owned;
    Facts2(s);
    if s.phase.HasJob? {
      PhaseOnly(s, HasJobStep(s));
    } else {
      PhaseOnly(s, OwnStealStep(s, s.phase.k));
    }
  }

  lemma ReleaseKeeps(s: Sys, e: Env)
    requires s.Sys? && Control(s) && Owned(s) && s.phase.Release?
    ensures SchedulerStep(s, e).Sys? && Control(SchedulerStep(s, e)) && Owned(SchedulerStep(s, e))
  {
    hide Owned, Control;
    Facts2(s);
    var i := s.owner;
    LeavesPhase(s, i, if s.ws[i].pc.idle then CheckDone(s.phase.nojob) else Top, s.blocked);
  }

  // -------------------------------------------------------- route and settle

  // A step that changes statuses, the queue and the ids in hand, no worker.
  lemma ServiceMoves(s: Sys, t: Sys)
    requires s.Sys? && Control(s) && Owned(s) && s.phase != Off && t.Sys? && t.phase != Off
    requires t == s.(schedule := t.schedule, services := t.services, phase := t.phase)
    requires GoodServices(t.services, |s.ws|) && |t.services| < s.size && GoodPhase(t.phase, s.ws[s.owner], t.services)
    requires forall x: nat, kind: Kind ::
      InLocal(t.phase, x, kind) + InQueue(t.schedule, x, kind) + Expected(s.services, x, kind) ==
      InLocal(s.phase, x, kind) + InQueue(s.schedule, x, kind) + Expected(t.services, x, kind)
    ensures Control(t) && Owned(t)
  {
    hide Control, Owned, InWorker, InLocal, InQueue, Expected, GoodPhase, GoodServices;
    Facts2(s);
    assert t.ws == s.ws[0 := s.ws[0]];
    PhaseMoves(s, t, 0, s.ws[0]);
    ShiftKeepsOwned(s, t, 0, s.ws[0]);
  }

  // check_message_to on its own: an idle service is put in the queue.
  lemma CheckToMoves(m: Services, q: seq<nat>, to: nat, x: nat, kind: Kind)
    requires to in m && m[to].status == Idle
    ensures InQueue(q + [to], x, kind) + Expected(m, x, kind) ==
      InQueue(q, x, kind) + Expected(SetStatus(m, to, Schedule), x, kind)
  {
    CountAppend(q, to, x);
  }

  lemma StatusKeepsShape(m: Services, id: nat, status: Status, n: nat)
    requires GoodServices(m, n) && id in m && m[id].status != Dead
    ensures GoodServices(SetStatus(m, id, status), n) && |SetStatus(m, id, status)| == |m|
  {
    SameSize(m, SetStatus(m, id, status));
  }

  // A dead service comes to be routed again, and its signal is lost.
  predicate StrayHead(s: Sys) {
    s.Sys? && s.phase.Route? && s.phase.jobs != [] && s.phase.jobs[0] in s.services && s.services[s.phase.jobs[0]].loss == Rerun
  }

  predicate Reporting(v: Service) {
    v.status == Dead && v.signal && v.loss == Intact
  }

  predicate Stray(v: Service) {
    v.status == Dead && !v.signal && v.loss == Rerun
  }

  // The head of `jobs` is finished; it is alive, or dead with a signal to send,
  // or dead and its signal is lost.
  lemma RoutedHead(s: Sys)
    requires s.Sys? && Control(s) && Owned(s) && s.phase.Route? && s.phase.jobs != []
    ensures s.phase.jobs[0] in s.services
    ensures var v := s.services[s.phase.jobs[0]]; v.status == Done || Reporting(v) || Stray(v)
    ensures StrayHead(s) <==> Stray(s.services[s.phase.jobs[0]])
  {
    hide Control, Owned;
    LocalIsOwned(s, s.phase.jobs[0]);
    Facts2(s);
    assert GoodService(s.services[s.phase.jobs[0]], |s.ws|);
  }

  // check_message_to, then on to `phase`, when the ids in hand stay.
  lemma MessageKeeps(s: Sys, to: nat)
    requires s.Sys? && Control(s) && Owned(s) && s.phase.Route? && s.phase.jobs != []
    requires StatusOf(s.services, s.phase.jobs[0]) == Done
    ensures var t := CheckRoute(s, to, Settle(s.phase.jobs)); t.Sys? && Control(t) && Owned(t)
  {
    hide Control, Owned, Expected, GoodServices, InQueue;
    Facts2(s);
    var jobs := s.phase.jobs;
    if StatusOf(s.services, to) == Idle {
      NotExpected(s.services, to);
      Room(s, to);
      StatusKeepsShape(s.services, to, Schedule, |s.ws|);
      forall x: nat, kind: Kind ensures InQueue(s.schedule + [to], x, kind) + Expected(s.services, x, kind) ==
        InQueue(s.schedule, x, kind) + Expected(SetStatus(s.services, to, Schedule), x, kind)
      {
        CheckToMoves(s.services, s.schedule, to, x, kind);
      }
      ServiceMoves(s, CheckRoute(s, to, Settle(jobs)));
    } else {
      PhaseOnly(s, s.(phase := Settle(jobs)));
    }
  }

  lemma NotExpected(m: Services, id: nat)
    requires id in m && m[id].status == Idle
    ensures Expected(m, id, Ready) == 0
  {
  }

  // A service is created or removed: nothing that counts.
  lemma PoolMoves(s: Sys, m: Services)
    requires s.Sys? && Control(s) && Owned(s) && s.phase.Route? && s.phase.jobs != []
    requires GoodServices(m, |s.ws|) && |m| < s.size && StatusOf(m, s.phase.jobs[0]) == Done
    requires forall x: nat, kind: Kind :: Expected(m, x, kind) == Expected(s.services, x, kind)
    ensures var t := s.(services := m, phase := Settle(s.phase.jobs)); Control(t) && Owned(t)
  {
    hide Control, Owned, InLocal, InQueue, Expected;
    Facts2(s);
    SameLocal(s.phase, Settle(s.phase.jobs));
    ServiceMoves(s, s.(services := m, phase := Settle(s.phase.jobs)));
  }

  lemma NewKeeps(s: Sys, x: nat)
    requires s.Sys? && Control(s) && Owned(s) && s.phase.Route? && s.phase.jobs != []
    requires StatusOf(s.services, s.phase.jobs[0]) == Done && x != 0 && x !in s.services && |s.services| + 1 < s.size
    ensures var t := s.(services := s.services[x := Service(Uninitialized, false, Intact, -1)], phase := Settle(s.phase.jobs));
      Control(t) && Owned(t)
  {
    hide Control, Owned;
    Facts2(s);
    var m := s.services[x := Service(Uninitialized, false, Intact, -1)];
    assert m.Keys == s.services.Keys + {x};
    assert |m| == |m.Keys| && |s.services| == |s.services.Keys|;
    PoolMoves(s, m);
  }

  lemma DeleteKeeps(s: Sys, x: nat)
    requires s.Sys? && Control(s) && Owned(s) && s.phase.Route? && s.phase.jobs != []
    requires StatusOf(s.services, s.phase.jobs[0]) == Done && Removable(s.services, x)
    ensures var t := s.(services := s.services - {x}, phase := Settle(s.phase.jobs)); Control(t) && Owned(t)
  {
    hide Control, Owned;
    Facts2(s);
    if x in s.services { assert GoodService(s.services[x], |s.ws|); }
    FewerServices(s.services, s.services - {x});
    PoolMoves(s, s.services - {x});
  }

  lemma SameLocal(p: Phase, q: Phase)
    requires Local(p) == Local(q)
    ensures forall x: nat, kind: Kind :: InLocal(p, x, kind) == InLocal(q, x, kind)
  {
  }

  // The message of a living service is routed.
  lemma RouteAlive(s: Sys, e: Env)
    requires s.Sys? && Control(s) && Owned(s) && s.phase.Route? && s.phase.jobs != [] && AllowedRoute(s, e)
    requires StatusOf(s.services, s.phase.jobs[0]) == Done
    ensures var t := SchedulerStep(s, e); t.Sys? && Control(t) && Owned(t)
  {
    hide Control, Owned, CheckRoute, GoodServices;
    Facts2(s);
    match e.message {
      case NoMessage => PhaseOnly(s, s.(phase := Settle(s.phase.jobs)));
      case To(to) => MessageKeeps(s, to);
      case New(x) => NewKeeps(s, x);
      case Delete(x) => DeleteKeeps(s, x);
    }
  }

  // The first job leaves the scheduler's hands.
  lemma HeadLeaves(jobs: seq<nat>, x: nat, kind: Kind)
    requires jobs != []
    ensures InLocal(Route(jobs), x, kind) == InLocal(Route(jobs[1..]), x, kind) + If(kind == Finished && x == jobs[0])
    ensures InLocal(Settle(jobs), x, kind) == InLocal(Route(jobs), x, kind)
  {
    CountTail(jobs, x);
  }

  lemma IdleIsOut(m: Services, id: nat)
    requires id in m && m[id].status == Idle
    ensures Expected(m, id, Ready) == 0
  {
  }

  // Root is woken by the report, or is not idle.
  lemma SignalMoves(s: Sys, m: Services, schedule: seq<nat>, after: Services, x: nat, kind: Kind)
    requires s.Sys? && s.phase.Route? && s.phase.jobs != [] && s.phase.jobs[0] in s.services
    requires Reporting(s.services[s.phase.jobs[0]])
    requires m == s.services[s.phase.jobs[0] := s.services[s.phase.jobs[0]].(signal := false)]
    requires (schedule == s.schedule && after == m) ||
      (ROOT in m && m[ROOT].status == Idle && schedule == s.schedule + [ROOT] && after == SetStatus(m, ROOT, Schedule))
    ensures InLocal(Route(s.phase.jobs[1..]), x, kind) + InQueue(schedule, x, kind) + Expected(s.services, x, kind) ==
      InLocal(s.phase, x, kind) + InQueue(s.schedule, x, kind) + Expected(after, x, kind)
  {
    hide InLocal, InQueue;
    HeadLeaves(s.phase.jobs, x, kind);
    SignalExpected(s.services, s.phase.jobs[0], x, kind);
    if after != m {
      hide Expected;
      CheckToMoves(m, s.schedule, ROOT, x, kind);
    }
  }

  lemma SignalExpected(m: Services, id: nat, x: nat, kind: Kind)
    requires id in m && Reporting(m[id])
    ensures Expected(m[id := m[id].(signal := false)], x, kind) + If(kind == Finished && x == id) == Expected(m, x, kind)
  {
  }

  // A death is reported to root.
  lemma SignalKeeps(s: Sys)
    requires s.Sys? && Control(s) && Owned(s) && s.phase.Route? && s.phase.jobs != []
    requires s.phase.jobs[0] in s.services && Reporting(s.services[s.phase.jobs[0]])
    requires StatusOf(s.services, ROOT) != Dead
    ensures var id := s.phase.jobs[0];
      var t := CheckRoute(s.(services := s.services[id := s.services[id].(signal := false)]), ROOT, Route(s.phase.jobs[1..]));
      t.Sys? && Control(t) && Owned(t)
  {
    hide Control, Owned, InLocal, InQueue, Expected;
    Facts2(s);
    var jobs := s.phase.jobs;
    var m := s.services[jobs[0] := s.services[jobs[0]].(signal := false)];
    SameSize(s.services, m);
    if StatusOf(m, ROOT) == Idle {
      IdleIsOut(s.services, ROOT);
      Room(s, ROOT);
      StatusKeepsShape(m, ROOT, Schedule, |s.ws|);
    }
    var t := CheckRoute(s.(services := m), ROOT, Route(jobs[1..]));
    forall x: nat, kind: Kind ensures
      InLocal(t.phase, x, kind) + InQueue(t.schedule, x, kind) + Expected(s.services, x, kind) ==
      InLocal(s.phase, x, kind) + InQueue(s.schedule, x, kind) + Expected(t.services, x, kind)
    {
      SignalMoves(s, m, t.schedule, t.services, x, kind);
    }
    ServiceMoves(s, t);
  }

  // Root is blocked: the dead service goes back to the queue.
  lemma BlockedKeeps(s: Sys)
    requires s.Sys? && Control(s) && Owned(s) && s.phase.Route? && s.phase.jobs != []
    requires s.phase.jobs[0] in s.services && Reporting(s.services[s.phase.jobs[0]])
    ensures var id := s.phase.jobs[0];
      var m := SetLoss(s.services[id := s.services[id].(signal := false)], id, Requeued);
      var t := BackRoute(s.(services := m), id, Route(s.phase.jobs[1..]));
      t.Sys? && Control(t) && Owned(t)
  {
    hide Control, Owned, InLocal, InQueue;
    Facts2(s);
    var jobs, id := s.phase.jobs, s.phase.jobs[0];
    var m := SetLoss(s.services[id := s.services[id].(signal := false)], id, Requeued);
    SameSize(s.services, m);
    Room(s, id);
    var t := s.(services := m, schedule := s.schedule + [id], phase := Route(jobs[1..]));
    forall x: nat, kind: Kind ensures
      InLocal(t.phase, x, kind) + InQueue(t.schedule, x, kind) + Expected(s.services, x, kind) ==
      InLocal(s.phase, x, kind) + InQueue(s.schedule, x, kind) + Expected(t.services, x, kind)
    {
      HeadLeaves(jobs, x, kind);
      BackCount(s.schedule, id, x, kind);
    }
    ServiceMoves(s, t);
  }

  // Root is gone: the dead service is deleted.
  lemma OrphanKeeps(s: Sys)
    requires s.Sys? && Control(s) && Owned(s) && s.phase.Route? && s.phase.jobs != []
    requires s.phase.jobs[0] in s.services && Reporting(s.services[s.phase.jobs[0]])
    ensures var t := s.(services := s.services - {s.phase.jobs[0]}, phase := Route(s.phase.jobs[1..])); Control(t) && Owned(t)
  {
    hide Control, Owned, InLocal, InQueue;
    Facts2(s);
    var jobs := s.phase.jobs;
    var t := s.(services := s.services - {jobs[0]}, phase := Route(jobs[1..]));
    FewerServices(s.services, t.services);
    forall x: nat, kind: Kind ensures InLocal(t.phase, x, kind) + Expected(s.services, x, kind) ==
      InLocal(s.phase, x, kind) + Expected(t.services, x, kind)
    {
      HeadLeaves(jobs, x, kind);
    }
    ServiceMoves(s, t);
  }

  // The assertion that a dead service has a signal for root fails for strays
  // and for no others.
  lemma RouteKeeps(s: Sys, e: Env)
    requires s.Sys? && Control(s) && Owned(s) && s.phase.Route? && AllowedRoute(s, e)
    ensures var t := SchedulerStep(s, e); if StrayHead(s) then t.Broken? else t.Sys? && Control(t) && Owned(t)
  {
    hide Control, Owned, CheckRoute, BackRoute, SetLoss, GoodServices;
    Facts2(s);
    if s.phase.jobs == [] {
      PhaseOnly(s, SchedulerStep(s, e));
    } else {
      RoutedHead(s);
      if s.services[s.phase.jobs[0]].status == Done {
        RouteAlive(s, e);
      } else if Reporting(s.services[s.phase.jobs[0]]) {
        if StatusOf(s.services, ROOT) == Dead {
          OrphanKeeps(s);
        } else if e.flag {
          BlockedKeeps(s);
        } else {
          SignalKeeps(s);
        }
      }
    }
  }

  // The assertion that a finished service is DONE holds, and it goes idle or
  // back to the queue.
  lemma SettleKeeps(s: Sys, e: Env)
    requires s.Sys? && Control(s) && Owned(s) && s.phase.Settle?
    ensures var t := SchedulerStep(s, e); t.Sys? && Control(t) && Owned(t)
  {
    hide Control, Owned, InLocal, InQueue;
    Facts2(s);
    var jobs := s.phase.jobs;
    var id := jobs[0];
    if e.flag { Room(s, id); }
    StatusKeepsShape(s.services, id, if e.flag then Schedule else Idle, |s.ws|);
    var t := SchedulerStep(s, e);
    forall x: nat, kind: Kind ensures
      InLocal(t.phase, x, kind) + InQueue(t.schedule, x, kind) + Expected(s.services, x, kind) ==
      InLocal(s.phase, x, kind) + InQueue(s.schedule, x, kind) + Expected(t.services, x, kind)
    {
      HeadLeaves(jobs, x, kind);
      BackCount(s.schedule, id, x, kind);
    }
    ServiceMoves(s, t);
  }

  lemma NoHead(s: Sys)
    ensures StrayHead(s) ==> s.phase.Route?
  {
  }

  lemma BackCount(q: seq<nat>, id: nat, x: nat, kind: Kind)
    ensures InQueue(q + [id], x, kind) == InQueue(q, x, kind) + If(kind == Ready && x == id)
  {
    CountAppend(q, id, x);
  }

  // ------------------------------------------------------------ prepare_task

  // A step that takes the head of the queue.
  lemma QueueMoves(s: Sys, t: Sys, k: nat, w: Worker)
    requires s.Sys? && t.Sys? && Control(s) && Owned(s) && s.phase.Prepare? && k < |s.ws|
    requires t == s.(ws := s.ws[k := w], schedule := t.schedule, phase := t.phase, blocked := t.blocked)
    requires w.pc == s.ws[k].pc && Dispatching(t.phase)
    requires forall x: nat, kind: Kind ::
      Places(w, t.phase, t.schedule, x, kind) == Places(s.ws[k], s.phase, s.schedule, x, kind)
    ensures Control(t) && Owned(t)
  {
    hide Control, Owned, Places;
    Facts2(s);
    StaysInDispatch(s, t, k, w);
    ShiftKeepsOwned(s, t, k, w);
  }

  lemma QueueTail(q: seq<nat>, x: nat, kind: Kind)
    requires q != []
    ensures InQueue(q, x, kind) == InQueue(q[1..], x, kind) + If(kind == Ready && x == q[0])
  {
    CountTail(q, x);
  }

  lemma PrepareUnbound(s: Sys, left: nat, prep: seq<nat>)
    requires s.Sys? && Control(s) && Owned(s) && s.phase == Prepare(left, prep) && left > 0 && s.schedule != []
    ensures var t := s.(schedule := s.schedule[1..], phase := Prepare(left - 1, prep + [s.schedule[0]])); Control(t) && Owned(t)
    ensures var t := s.(schedule := s.schedule[1..] + [s.schedule[0]], phase := Prepare(left - 1, prep)); Control(t) && Owned(t)
  {
    hide Control, Owned, InWorker, InQueue;
    Facts2(s);
    var job, rest := s.schedule[0], s.schedule[1..];
    var t := s.(schedule := rest, phase := Prepare(left - 1, prep + [job]));
    var u := s.(schedule := rest + [job], phase := Prepare(left - 1, prep));
    assert s.ws == s.ws[0 := s.ws[0]];
    forall x: nat, kind: Kind
      ensures Places(s.ws[0], t.phase, t.schedule, x, kind) == Places(s.ws[0], s.phase, s.schedule, x, kind)
      ensures Places(s.ws[0], u.phase, u.schedule, x, kind) == Places(s.ws[0], s.phase, s.schedule, x, kind)
    {
      QueueTail(s.schedule, x, kind);
      IntoArray(prep, job, x);
      BackCount(rest, job, x, kind);
    }
    QueueMoves(s, t, 0, s.ws[0]);
    QueueMoves(s, u, 0, s.ws[0]);
  }

  lemma EnqueuedHead(w: Worker, job: nat)
    requires job != 0 && (w.queue != [] ==> w.queue[0] != 0)
    ensures (w.queue + [job])[0] != 0
  {
  }

  lemma PrepareBound(s: Sys, t: Sys, b: nat, w: Worker)
    requires s.Sys? && t.Sys? && Control(s) && Owned(s) && s.phase.Prepare? && s.schedule != [] && b < |s.ws|
    requires w == s.ws[b].(queue := s.ws[b].queue + [s.schedule[0]]) && s.schedule[0] != 0
    requires t == s.(ws := s.ws[b := if w.ready != 0 then w else TakeBound(w)], schedule := s.schedule[1..],
                     phase := t.phase, blocked := t.blocked)
    requires Dispatching(t.phase) && Local(t.phase) == Local(s.phase)
    ensures Control(t) && Owned(t)
  {
    hide Control, Owned, InWorker, InQueue, TakeBound, Local;
    var job := s.schedule[0];
    if s.ws[b].queue != [] { NotNull(s, b); }
    EnqueuedHead(s.ws[b], job);
    SameLocal(s.phase, t.phase);
    var v := if w.ready != 0 then w else TakeBound(w);
    BoundPc(w);
    forall x: nat, kind: Kind
      ensures Places(v, t.phase, t.schedule, x, kind) == Places(s.ws[b], s.phase, s.schedule, x, kind)
    {
      QueueTail(s.schedule, x, kind);
      Enqueued(s.ws[b], job, x, kind);
      if w.ready == 0 { Promoted(w, x, kind); }
    }
    QueueMoves(s, t, b, v);
  }

  lemma PrepareKeeps(s: Sys, e: Env)
    requires s.Sys? && Control(s) && Owned(s) && s.phase.Prepare?
    ensures var t := SchedulerStep(s, e); t.Sys? && Control(t) && Owned(t)
  {
    hide Control, Owned, PrepareStep;
    Facts2(s);
    var Prepare(left, prep) := s.phase;
    if left == 0 || s.schedule == [] {
      PhaseOnly(s, s.(phase := Assign(0, false, false, prep)));
    } else {
      PrepareJob(s, left, prep);
    }
  }

  lemma PrepareJob(s: Sys, left: nat, prep: seq<nat>)
    requires s.Sys? && Control(s) && Owned(s) && s.phase == Prepare(left, prep) && left > 0 && s.schedule != []
    ensures var t := PrepareStep(s.(schedule := s.schedule[1..]), s.schedule[0], left, prep); t.Sys? && Control(t) && Owned(t)
  {
    hide Control, Owned, TakeBound;
    Facts2(s);
    var job := s.schedule[0];
    QueuedIsOwned(s, job);
    var b := BindingOf(s.services, job);
    if b < 0 || |s.ws[b].queue| >= BINDING_SERVICE_QUEUE {
      PrepareUnbound(s, left, prep);
    } else {
      PrepareBound(s, PrepareStep(s.(schedule := s.schedule[1..]), job, left, prep), b, s.ws[b].(queue := s.ws[b].queue + [job]));
    }
  }

  // --------------------------------------------------------------- main result

  // All steps but those of step 6, whose assertion SchedBudget deals with.
  lemma SchedulerKeeps(s: Sys, e: Env)
    requires s.Sys? && Control(s) && Owned(s) && s.phase != Off && AllowedRoute(s, e)
    requires !s.phase.Assign?
    ensures var t := SchedulerStep(s, e);
      t.Aborted? || (t.Broken? && StrayHead(s)) || (t.Sys? && Control(t) && Owned(t))
    ensures StrayHead(s) ==> SchedulerStep(s, e).Broken?
  {
    hide Control, Owned, SchedulerStep, AllowedRoute, StrayHead;
    NoHead(s);
    match s.phase {
      case Collect(_, _) => CollectKeeps(s, e);
      case Route(_) => RouteKeeps(s, e);
      case Settle(_) => SettleKeeps(s, e);
      case Pending(_, _, _) => PendingKeeps(s, e);
      case PendingCas(_, _, _, _) => PendingCasKeeps(s, e);
      case Count(_, _, _, _) => CountKeeps(s, e);
      case CountWake(_, _, _, _) => WakingKeeps(s, e);
      case Prepare(_, _) => PrepareKeeps(s, e);
      case PrepareWake(_, _, _) => WakingKeeps(s, e);
      case AssignWake(_, _, _, _) => WakingKeeps(s, e);
      case Trigger => TriggerKeeps(s, e);
      case HasJob => TailKeeps(s, e);
      case OwnSteal(_) => TailKeeps(s, e);
      case OwnCas(_, _) => OwnCasKeeps(s, e);
      case OwnStore(_) => OwnStoreKeeps(s, e);
      case Release(_) => ReleaseKeeps(s, e);
    }
  }
}
