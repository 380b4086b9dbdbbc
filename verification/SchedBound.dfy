// A service bound to a worker is run by that worker and by no other, through
// the binding queue, the assignments and both ways of stealing.
module SchedBound {
  import opened SchedModel
  import opened SchedOwner
  import opened SchedDispatch
  import opened SchedEffect

  // Worker w may run x.
  predicate OkAt(m: Services, x: nat, w: nat) {
    BindingOf(m, x) < 0 || BindingOf(m, x) == w
  }

  ghost predicate WorkerOk(m: Services, w: Worker, k: nat) {
    && |w.queue| <= BINDING_SERVICE_QUEUE
    && (forall x | x in w.queue :: BindingOf(m, x) == k)
    && (w.ready != 0 ==> OkAt(m, w.ready, k))
    && (w.pc.Begin? || w.pc.Check? ==> OkAt(m, w.pc.id, k))
  }

  // What the scheduler has in hand to give away is not bound.
  ghost predicate HandsOk(s: Sys)
    requires s.Sys?
  {
    && (Local(s.phase).1 == Ready ==> forall x | x in Local(s.phase).0 :: BindingOf(s.services, x) < 0)
    && (s.phase.PendingCas? || s.phase.OwnCas? ==>
          s.phase.k < |s.ws| && s.ws[s.phase.k].ready == s.phase.job ==> BindingOf(s.services, s.phase.job) != s.phase.k)
  }

  ghost predicate Bound(s: Sys)
    requires s.Sys?
  {
    (forall k | 0 <= k < |s.ws| :: WorkerOk(s.services, s.ws[k], k)) && HandsOk(s)
  }

  // A service that waits to run keeps its binding.
  ghost predicate Stable(m: Services, n: Services) {
    forall x: nat | Expected(m, x, Ready) == 1 :: BindingOf(n, x) == BindingOf(m, x)
  }

  lemma WorkerStable(s: Sys, i: nat, e: Env)
    requires s.Sys? && i < |s.ws| && Control(s) && Owned(s) && Allowed(s, i, e) && (s.phase == Off || s.owner != i)
    requires WorkerStep(s, i, e).Sys?
    ensures Stable(s.services, WorkerStep(s, i, e).services)
  {
    hide Owned, Control, WorkerStep;
    if s.ws[i].pc.Run? {
      RunStable(s, i, e);
    } else if s.ws[i].pc.Check? {
      CheckStable(s, i, e);
    } else {
      ServicesKept(s, i, e);
    }
  }

  lemma RunStable(s: Sys, i: nat, e: Env)
    requires s.Sys? && i < |s.ws| && Control(s) && Owned(s) && s.ws[i].pc.Run? && AllowedEvent(s, s.ws[i].pc.id, e.event)
    ensures WorkerStep(s, i, e).Sys? && Stable(s.services, WorkerStep(s, i, e).services)
  {
    hide Owned, Control;
    Facts(s, i);
    HeldIsOwned(s, i);
  }

  lemma CheckStable(s: Sys, i: nat, e: Env)
    requires s.Sys? && i < |s.ws| && s.ws[i].pc.Check? && WorkerStep(s, i, e).Sys?
    ensures Stable(s.services, WorkerStep(s, i, e).services)
  {
  }

  // A worker all of whose waiting services keep their binding stays right.
  lemma StillOk(s: Sys, n: Services, k: nat)
    requires s.Sys? && k < |s.ws| && Owned(s) && Control(s) && Stable(s.services, n) && WorkerOk(s.services, s.ws[k], k)
    ensures WorkerOk(n, s.ws[k], k)
  {
    hide Owned, Control, Expected;
    Facts(s, k);
    forall x | x in s.ws[k].queue ensures BindingOf(n, x) == k {
      BoundIsOwned(s, k, x);
    }
    if s.ws[k].ready != 0 { ReadyIsOwned(s, k); }
    if s.ws[k].pc.Begin? || s.ws[k].pc.Check? { HeldIsOwned(s, k); }
  }

  lemma ReadyIsOwned(s: Sys, k: nat)
    requires s.Sys? && Owned(s) && k < |s.ws| && s.ws[k].ready != 0
    ensures Expected(s.services, s.ws[k].ready, Ready) == 1
  {
    var x := s.ws[k].ready;
    Holds(s.ws, k, x, Ready);
    assert Total(s, x, Ready) == Expected(s.services, x, Ready);
  }

  lemma HandsStay(s: Sys, t: Sys)
    requires s.Sys? && t.Sys? && Owned(s) && HandsOk(s) && Stable(s.services, t.services) && t.phase == s.phase
    requires |t.ws| == |s.ws| && forall k | 0 <= k < |s.ws| :: t.ws[k].ready == s.ws[k].ready || t.ws[k].ready == 0
    requires Control(s)
    ensures HandsOk(t)
  {
    hide Owned, Expected, Control;
    Facts2(s);
    if Local(s.phase).1 == Ready {
      forall x | x in Local(s.phase).0 ensures BindingOf(t.services, x) < 0 { LocalIsOwned(s, x); }
    }
    if s.phase.PendingCas? || s.phase.OwnCas? {
      var k := s.phase.k;
      if k < |s.ws| && t.ws[k].ready == s.phase.job { ReadyIsOwned(s, k); }
    }
  }

  lemma OwnStepJobs(w: Worker, blocked: bool)
    ensures var v := OwnStep(w, blocked); v.pc.Begin? ==> v.pc == w.pc
    ensures var v := OwnStep(w, blocked); v.pc.Check? ==> (w.pc.Begin? && v.pc.id == w.pc.id) || v.pc == w.pc
  {
    hide OwnStep;
    OwnStepPcs(w, blocked);
  }

  // Worker i itself, after its step.
  lemma MoverOk(s: Sys, n: Services, i: nat, e: Env)
    requires s.Sys? && i < |s.ws| && !Quits(s.ws[i].pc) && WorkerOk(n, s.ws[i], i) && GoodPc(s.ws[i].pc)
    ensures WorkerOk(n, NextWorker(s, i, e), i)
  {
    hide NextWorker, BindingOf;
    SlotsOf(s, i, e);
    MoverJob(s, i, e);
  }

  // A job comes into a worker's hands from its slot.
  lemma MoverJob(s: Sys, i: nat, e: Env)
    requires s.Sys? && i < |s.ws| && !Quits(s.ws[i].pc)
    ensures var w, v := s.ws[i], NextWorker(s, i, e);
      v.pc.Begin? || v.pc.Check? ==>
        ((w.pc.Begin? || w.pc.Check?) && v.pc.id == w.pc.id) || (w.pc.GetCas? && v.pc == Begin(w.ready) && w.ready == w.pc.job)
  {
    hide OwnStep, StatusOf, Rebind;
    OwnStepJobs(s.ws[i], s.blocked);
    if s.ws[i].pc.After? { RebindPc(s.ws[i], s.ws[i].pc.id, s.ws[i].pc.dead, BindingOf(s.services, s.ws[i].pc.id) == i); }
  }

  lemma RebindPc(w: Worker, id: nat, dead: bool, bound: bool)
    ensures Rebind(w, id, dead, bound).pc == Complete(id)
  {
  }

  lemma QuitsOk(s: Sys, t: Sys, i: nat, e: Env)
    requires s.Sys? && i < |s.ws| && Quits(s.ws[i].pc) && t == WorkerStep(s, i, e)
    ensures t.Sys? && t.services == s.services && t.phase == s.phase && |t.ws| == |s.ws|
    ensures forall k | 0 <= k < |s.ws| :: t.ws[k].ready == s.ws[k].ready && t.ws[k].queue == s.ws[k].queue
    ensures forall k | 0 <= k < |s.ws| :: t.ws[k].pc == s.ws[k].pc || Quits(t.ws[k].pc) || t.ws[k].pc.Exited?
  {
    hide WorkerStep;
    QuitsEffect(s, i, e);
  }

  lemma WorkerBound(s: Sys, i: nat, e: Env)
    requires s.Sys? && i < |s.ws| && Control(s) && Owned(s) && Bound(s) && Allowed(s, i, e) &&
      (s.phase == Off || s.owner != i)
    requires WorkerStep(s, i, e).Sys?
    ensures Bound(WorkerStep(s, i, e))
  {
    hide Owned, Control, WorkerStep, WorkerOk, HandsOk, Stable, Allowed, NextWorker;
    var t := WorkerStep(s, i, e);
    WorkerStable(s, i, e);
    forall k | 0 <= k < |s.ws| ensures WorkerOk(t.services, s.ws[k], k) { StillOk(s, t.services, k); }
    if Quits(s.ws[i].pc) {
      QuitsOk(s, t, i, e);
      forall k | 0 <= k < |t.ws| ensures WorkerOk(t.services, t.ws[k], k) { SameOk(t.services, s.ws[k], t.ws[k], k); }
    } else {
      Facts(s, i);
      Effect(s, i, e);
      SlotsOf(s, i, e);
      MoverOk(s, t.services, i, e);
    }
    if s.phase == Off { IdleEffect(s, i, e); EmptyHands(t); } else { RoundKept(s, i, e); HandsStay(s, t); }
  }

  lemma SameOk(m: Services, v: Worker, w: Worker, k: nat)
    requires WorkerOk(m, v, k) && w.ready == v.ready && w.queue == v.queue
    requires w.pc == v.pc || (!w.pc.Begin? && !w.pc.Check?)
    ensures WorkerOk(m, w, k)
  {
  }

  lemma EmptyHands(s: Sys)
    requires s.Sys? && (s.phase == Off || s.phase == Collect(0, []))
    ensures HandsOk(s)
  {
  }

  // -------------------------------------------------------- scheduler's steps

  lemma RoutingStable(s: Sys, e: Env)
    requires s.Sys? && 0 <= s.owner < |s.ws| && (s.phase.Route? || s.phase.Settle?) && AllowedRoute(s, e) &&
      Control(s) && Owned(s)
    requires SchedulerStep(s, e).Sys?
    ensures var t := SchedulerStep(s, e);
      Stable(s.services, t.services) && t.ws == s.ws && (t.phase.Route? || t.phase.Settle? || t.phase == Pending(0, [], []))
  {
    hide Owned, Control, SchedulerStep;
    if s.phase.Route? { RouteStable(s, e); } else { SettleStable(s, e); }
  }

  lemma RouteStable(s: Sys, e: Env)
    requires s.Sys? && 0 <= s.owner < |s.ws| && s.phase.Route? && AllowedRoute(s, e) && Control(s) && Owned(s)
    requires SchedulerStep(s, e).Sys?
    ensures var t := SchedulerStep(s, e);
      Stable(s.services, t.services) && t.ws == s.ws && (t.phase.Route? || t.phase.Settle? || t.phase == Pending(0, [], []))
  {
    hide Owned, Control;
    if s.phase.jobs != [] { RoutedHead(s); }
  }

  lemma SettleStable(s: Sys, e: Env)
    requires s.Sys? && 0 <= s.owner < |s.ws| && s.phase.Settle? && SchedulerStep(s, e).Sys?
    ensures var t := SchedulerStep(s, e); Stable(s.services, t.services) && t.ws == s.ws && t.phase.Route?
  {
  }

  lemma RouteBound(s: Sys, e: Env)
    requires s.Sys? && 0 <= s.owner < |s.ws| && (s.phase.Route? || s.phase.Settle?) && AllowedRoute(s, e) &&
      Control(s) && Owned(s)
    requires SchedulerStep(s, e).Sys? && Bound(s)
    ensures Bound(SchedulerStep(s, e))
  {
    hide Owned, Control, SchedulerStep, WorkerOk, Stable;
    var t := SchedulerStep(s, e);
    RoutingStable(s, e);
    forall k | 0 <= k < |t.ws| ensures WorkerOk(t.services, t.ws[k], k) { StillOk(s, t.services, k); }
  }

  // All other steps of the scheduler leave the services alone.
  lemma CollectBound(s: Sys, e: Env)
    requires s.Sys? && 0 <= s.owner < |s.ws| && Bound(s) && s.phase.Collect?
    ensures SchedulerStep(s, e).Sys? && Bound(SchedulerStep(s, e))
  {
  }

  lemma TakeBoundOk(m: Services, w: Worker, k: nat)
    requires WorkerOk(m, w, k) && w.queue != []
    ensures WorkerOk(m, TakeBound(w), k)
  {
    assert w.queue[0] in w.queue;
  }

  lemma CountBound(s: Sys, e: Env)
    requires s.Sys? && 0 <= s.owner < |s.ws| && Bound(s) && (s.phase.Count? || s.phase.CountWake?) &&
      !SchedulerStep(s, e).Aborted?
    ensures SchedulerStep(s, e).Sys? && Bound(SchedulerStep(s, e))
  {
    hide TakeBound, WorkerOk;
    var k := s.phase.k;
    if k < |s.ws| {
      if s.ws[k].queue != [] { TakeBoundOk(s.services, s.ws[k], k); }
      WakeOk(s.services, s.ws[k], k);
    }
  }

  lemma WakeOk(m: Services, w: Worker, k: nat)
    requires WorkerOk(m, w, k)
    ensures WorkerOk(m, Wake(w), k)
  {
  }

  lemma EnqueueOk(m: Services, w: Worker, k: nat, job: nat)
    requires WorkerOk(m, w, k) && BindingOf(m, job) == k && |w.queue| < BINDING_SERVICE_QUEUE
    ensures WorkerOk(m, w.(queue := w.queue + [job]), k)
  {
  }

  lemma GiveOk(m: Services, w: Worker, k: nat, job: nat)
    requires WorkerOk(m, w, k) && BindingOf(m, job) < 0
    ensures WorkerOk(m, w.(ready := job), k)
  {
  }

  lemma PrepareBoundOk(s: Sys, e: Env)
    requires s.Sys? && 0 <= s.owner < |s.ws| && Bound(s) && (s.phase.Prepare? || s.phase.PrepareWake?) &&
      SchedulerStep(s, e).Sys?
    ensures Bound(SchedulerStep(s, e))
  {
    hide TakeBound, WorkerOk;
    if s.phase.PrepareWake? {
      if s.phase.k < |s.ws| { WakeOk(s.services, s.ws[s.phase.k], s.phase.k); }
    } else if s.phase.left > 0 && s.schedule != [] {
      var job := s.schedule[0];
      var b := BindingOf(s.services, job);
      if 0 <= b < |s.ws| { PrepareQueue(s, b, job); }
    }
  }

  lemma PrepareQueue(s: Sys, b: nat, job: nat)
    requires s.Sys? && Bound(s) && b < |s.ws| && BindingOf(s.services, job) == b
    ensures |s.ws[b].queue| < BINDING_SERVICE_QUEUE ==>
      var w := s.ws[b].(queue := s.ws[b].queue + [job]);
      WorkerOk(s.services, w, b) && WorkerOk(s.services, TakeBound(w), b)
  {
    hide WorkerOk, TakeBound;
    if |s.ws[b].queue| < BINDING_SERVICE_QUEUE {
      EnqueueOk(s.services, s.ws[b], b, job);
      TakeBoundOk(s.services, s.ws[b].(queue := s.ws[b].queue + [job]), b);
    }
  }

  // A worker is replaced by one that is right, and nothing new is in hand.
  lemma SlotBound(s: Sys, t: Sys, k: nat, w: Worker)
    requires s.Sys? && t.Sys? && Bound(s) && k < |s.ws| && t.ws == s.ws[k := w] && t.services == s.services
    requires WorkerOk(s.services, w, k) && !t.phase.PendingCas? && !t.phase.OwnCas?
    requires Local(t.phase).1 == Ready ==>
      Local(s.phase).1 == Ready && forall x | x in Local(t.phase).0 :: x in Local(s.phase).0
    ensures Bound(t)
  {
    hide WorkerOk, BindingOf;
  }

  lemma AssignBoundOk(s: Sys, e: Env)
    requires s.Sys? && 0 <= s.owner < |s.ws| && Bound(s) && s.phase.Assign? && SchedulerStep(s, e).Sys?
    ensures Bound(SchedulerStep(s, e))
  {
    hide TakeBound, WorkerOk;
    var Assign(k, busy, bound, prep) := s.phase;
    var t := SchedulerStep(s, e);
    if prep != [] && k < |s.ws| && (busy || e.flag) && (s.ws[k].binding == 0 || bound) && s.ws[k].ready == 0 {
      if s.ws[k].queue != [] {
        TakeBoundOk(s.services, s.ws[k], k);
        SlotBound(s, t, k, TakeBound(s.ws[k]));
      } else {
        assert prep[0] in Local(s.phase).0;
        GiveOk(s.services, s.ws[k], k, prep[0]);
        SlotBound(s, t, k, s.ws[k].(ready := prep[0]));
      }
    } else {
      assert t.ws == s.ws;
    }
  }

  lemma AssignWakeOk(s: Sys, e: Env)
    requires s.Sys? && 0 <= s.owner < |s.ws| && Bound(s) && s.phase.AssignWake?
    ensures SchedulerStep(s, e).Sys? && Bound(SchedulerStep(s, e))
  {
    hide WorkerOk;
    var k := s.phase.k;
    if k < |s.ws| && !s.ws[k].pc.Locked? {
      WakeOk(s.services, s.ws[k], k);
      SlotBound(s, SchedulerStep(s, e), k, Wake(s.ws[k]));
    }
  }

  lemma RobbedOk(m: Services, w: Worker, k: nat)
    requires WorkerOk(m, w, k)
    ensures WorkerOk(m, w.(ready := 0), k)
    ensures w.ready != 0 && BindingOf(m, w.ready) != k ==> BindingOf(m, w.ready) < 0
  {
  }

  // Worker k's job, which is not bound to it, comes into the scheduler's hands.
  lemma RobbedBound(s: Sys, k: nat, p: Phase)
    requires s.Sys? && Bound(s) && k < |s.ws| && s.ws[k].ready != 0 && BindingOf(s.services, s.ws[k].ready) != k
    requires !p.PendingCas? && !p.OwnCas? && Local(p).0 == Local(s.phase).0 + [s.ws[k].ready]
    requires Local(s.phase).1 == Ready || Local(s.phase).0 == []
    ensures Bound(s.(ws := s.ws[k := s.ws[k].(ready := 0)], phase := p))
  {
    hide WorkerOk, BindingOf, Local;
    RobbedOk(s.services, s.ws[k], k);
  }

  // Nothing is taken yet.
  lemma LookedAt(s: Sys, p: Phase)
    requires s.Sys? && Bound(s) && Local(p) == Local(s.phase)
    requires p.PendingCas? || p.OwnCas? ==> p.k < |s.ws| && p.job == s.ws[p.k].ready && BindingOf(s.services, p.job) != p.k
    ensures Bound(s.(phase := p))
  {
    hide WorkerOk, BindingOf, Local;
  }

  // get_pending_jobs never takes a bound service.
  lemma PendingBound(s: Sys, e: Env)
    requires s.Sys? && 0 <= s.owner < |s.ws| && Bound(s) && (s.phase.Pending? || s.phase.PendingCas?)
    requires s.phase.PendingCas? ==> s.phase.job != 0
    ensures SchedulerStep(s, e).Sys? && Bound(SchedulerStep(s, e))
  {
    hide WorkerOk, BindingOf;
    if s.phase.PendingCas? && s.phase.k < |s.ws| && s.ws[s.phase.k].ready == s.phase.job && !e.fail {
      var PendingCas(k, job, jobs, from) := s.phase;
      RobbedBound(s, k, Pending(k + 1, jobs + [job], from + [k]));
    } else {
      LookedAt(s, SchedulerStep(s, e).phase);
    }
  }

  // The owner's own stealing does not take a bound service either.
  lemma TailBound(s: Sys, e: Env)
    requires s.Sys? && 0 <= s.owner < |s.ws| && Bound(s) && (s.phase.HasJob? || s.phase.OwnSteal? || s.phase.OwnCas?)
    requires s.phase.OwnCas? ==> s.phase.job != 0
    ensures SchedulerStep(s, e).Sys? && Bound(SchedulerStep(s, e))
  {
    hide WorkerOk, BindingOf;
    if s.phase.OwnCas? && s.phase.k < |s.ws| && s.ws[s.phase.k].ready == s.phase.job && !e.fail {
      RobbedBound(s, s.phase.k, OwnStore(s.phase.job));
    } else {
      LookedAt(s, SchedulerStep(s, e).phase);
    }
  }

  lemma PcOk(m: Services, w: Worker, k: nat, pc: Pc)
    requires WorkerOk(m, w, k) && !pc.Begin? && !pc.Check?
    ensures WorkerOk(m, w.(pc := pc), k)
  {
  }

  lemma EndBound(s: Sys, e: Env)
    requires s.Sys? && 0 <= s.owner < |s.ws| && Bound(s) && (s.phase.Trigger? || s.phase.OwnStore? || s.phase.Release?)
    ensures SchedulerStep(s, e).Sys? && Bound(SchedulerStep(s, e))
  {
    hide WorkerOk;
    var i, t := s.owner, SchedulerStep(s, e);
    if s.phase.OwnStore? {
      assert s.phase.job in Local(s.phase).0;
      GiveOk(s.services, s.ws[i], i, s.phase.job);
      SlotBound(s, t, i, s.ws[i].(ready := s.phase.job));
    } else {
      var pc := t.ws[i].pc;
      assert t.ws == s.ws[i := s.ws[i].(pc := pc)] || t.ws == s.ws;
      assert s.ws == s.ws[i := s.ws[i]];
      if t.ws != s.ws { PcOk(s.services, s.ws[i], i, pc); SlotBound(s, t, i, s.ws[i].(pc := pc)); } else { SlotBound(s, t, i, s.ws[i]); }
    }
  }

  lemma SchedulerBound(s: Sys, e: Env)
    requires s.Sys? && Control(s) && Owned(s) && Bound(s) && s.phase != Off && AllowedRoute(s, e) &&
      SchedulerStep(s, e).Sys?
    ensures Bound(SchedulerStep(s, e))
  {
    hide Control, Owned, Bound, SchedulerStep, AllowedRoute;
    Facts2(s);
    match s.phase {
      case Collect(_, _) => CollectBound(s, e);
      case Route(_) => RouteBound(s, e);
      case Settle(_) => RouteBound(s, e);
      case Pending(_, _, _) => PendingBound(s, e);
      case PendingCas(_, _, _, _) => PendingBound(s, e);
      case Count(_, _, _, _) => CountBound(s, e);
      case CountWake(_, _, _, _) => CountBound(s, e);
      case Prepare(_, _) => PrepareBoundOk(s, e);
      case PrepareWake(_, _, _) => PrepareBoundOk(s, e);
      case Assign(_, _, _, _) => AssignBoundOk(s, e);
      case AssignWake(_, _, _, _) => AssignWakeOk(s, e);
      case HasJob => TailBound(s, e);
      case OwnSteal(_) => TailBound(s, e);
      case OwnCas(_, _) => TailBound(s, e);
      case _ => EndBound(s, e);
    }
  }
}
