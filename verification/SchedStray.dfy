// A death signal is lost when root's mailbox is full: which services are
// strays because of it, and what holds before and after root has quit.
module SchedStray {
  import opened SchedModel
  import opened SchedOwner
  import opened SchedDispatch
  import opened SchedEffect
  import opened SchedStrand

  // A death that the scheduler took out of its slot and root never heard of.
  ghost predicate HasStray(m: Services) {
    exists x :: x in m && m[x].loss != Intact
  }

  // The step of worker i finds root's mailbox full, with a death to report.
  predicate Drops(s: Sys, i: nat, e: Env) {
    && s.Sys? && i < |s.ws| && s.owner == i && s.phase.Route? && s.phase.jobs != [] && e.flag
    && StatusOf(s.services, s.phase.jobs[0]) == Dead && StatusOf(s.services, ROOT) != Dead
  }

  // The worker's done slot is empty once its own round has collected it.
  predicate Collected(w: Worker, p: Phase, k: nat) {
    && (w.pc.Complete3? ==> w.done == 0)
    && (w.pc.Redo? && !(p.Collect? && p.k <= k) ==> w.done == 0)
  }

  ghost predicate Traced(s: Sys)
    requires s.Sys?
  {
    && (s.owner != NONE || HasStray(s.services) ==> s.started)
    && (forall k | 0 <= k < |s.ws| :: s.ws[k].term ==> Stopping(s.ws))
    && (Stopping(s.ws) ==> StatusOf(s.services, ROOT) == Dead)
    && forall k | 0 <= k < |s.ws| :: Collected(s.ws[k], s.phase, k)
  }

  // ------------------------------------------------------- strays stay strays

  lemma CheckStrays(s: Sys, i: nat, e: Env)
    requires s.Sys? && i < |s.ws| && Control(s) && Owned(s) && s.ws[i].pc.Check? && WorkerStep(s, i, e).Sys?
    ensures HasStray(WorkerStep(s, i, e).services) <==> HasStray(s.services)
  {
    hide Owned, Control;
    CheckOwned(s, i, e);
    var id := s.ws[i].pc.id;
    var m, n := s.services, WorkerStep(s, i, e).services;
    if HasStray(m) {
      var x :| x in m && m[x].loss != Intact;
      assert x in n && n[x].loss != Intact;
    }
    if HasStray(n) && m[id].status == Schedule {
      var x :| x in n && n[x].loss != Intact;
      assert x in m && m[x].loss != Intact;
    }
  }

  lemma SameLosses(m: Services, n: Services)
    requires forall x | x in m && m[x].loss != Intact :: x in n && n[x].loss != Intact
    requires forall x | x in n && n[x].loss != Intact :: x in m && m[x].loss != Intact
    ensures HasStray(m) <==> HasStray(n)
  {
    if HasStray(m) {
      var x :| x in m && m[x].loss != Intact;
      assert x in n && n[x].loss != Intact;
    }
  }

  // One service changes, and not its loss.
  lemma OneLoss(m: Services, x: nat, v: Service)
    requires x in m && v.loss == m[x].loss
    ensures HasStray(m[x := v]) <==> HasStray(m)
  {
    hide HasStray;
    SameLosses(m, m[x := v]);
  }

  lemma LessLoss(m: Services, x: nat)
    requires x in m ==> m[x].loss == Intact
    ensures HasStray(m - {x}) <==> HasStray(m)
  {
    hide HasStray;
    SameLosses(m, m - {x});
  }

  lemma SetLosses(m: Services, x: nat, status: Status, b: int)
    ensures HasStray(SetStatus(m, x, status)) <==> HasStray(m)
    ensures HasStray(SetBinding(m, x, b)) <==> HasStray(m)
  {
    hide HasStray;
    if x in m {
      OneLoss(m, x, m[x].(status := status));
      OneLoss(m, x, m[x].(binding := b));
    }
  }

  lemma RunStrays(s: Sys, i: nat, e: Env)
    requires s.Sys? && i < |s.ws| && Control(s) && s.ws[i].pc.Run? && AllowedEvent(s, s.ws[i].pc.id, e.event)
    ensures WorkerStep(s, i, e).Sys? && (HasStray(WorkerStep(s, i, e).services) <==> HasStray(s.services))
  {
    hide HasStray, Control, SetStatus, SetBinding;
    Facts(s, i);
    var m, id := s.services, s.ws[i].pc.id;
    match e.event {
      case Compute =>
      case Yield => SetLosses(m, id, Done, 0);
      case Exit =>
        SetLosses(m, id, Dead, 0);
        var dead := SetStatus(m, id, Dead);
        SetKeys(m, id, Dead);
        if id in m { OneLoss(dead, id, dead[id].(signal := true)); }
      case Bind(b) => SetLosses(m, id, Done, b);
      case Init(x, b) =>
        SetLosses(m, x, Idle, b);
        SetLosses(SetBinding(m, x, b), x, Idle, b);
      case Discard(x) =>
        if x in m { assert GoodService(m[x], |s.ws|); }
        LessLoss(m, x);
    }
  }

  lemma SetKeys(m: Services, x: nat, status: Status)
    ensures SetStatus(m, x, status).Keys == m.Keys
  {
  }

  lemma WorkerStrays(s: Sys, i: nat, e: Env)
    requires s.Sys? && i < |s.ws| && Control(s) && Owned(s) && Allowed(s, i, e) && (s.phase == Off || s.owner != i)
    requires WorkerStep(s, i, e).Sys?
    ensures HasStray(WorkerStep(s, i, e).services) <==> HasStray(s.services)
  {
    hide Owned, Control, HasStray, WorkerStep, AllowedEvent;
    if s.ws[i].pc.Check? {
      CheckStrays(s, i, e);
    } else if s.ws[i].pc.Run? {
      RunStrays(s, i, e);
    } else {
      ServicesKept(s, i, e);
    }
  }

  lemma PrepareRest(s: Sys, e: Env)
    requires s.Sys? && 0 <= s.owner < |s.ws| && s.phase.Prepare? && SchedulerStep(s, e).Sys?
    ensures var t := SchedulerStep(s, e); t.services == s.services && t.started == s.started && t.owner == s.owner
  {
    hide TakeBound;
  }

  lemma TailRest(s: Sys, e: Env)
    requires s.Sys? && 0 <= s.owner < |s.ws| && (s.phase.Trigger? || TailPhase(s.phase))
    ensures var t := SchedulerStep(s, e); t.Sys? && t.services == s.services && t.started == s.started
  {
  }

  lemma OnlyRouting(s: Sys, e: Env)
    requires s.Sys? && 0 <= s.owner < |s.ws| && !s.phase.Route? && !s.phase.Settle? && SchedulerStep(s, e).Sys?
    ensures SchedulerStep(s, e).services == s.services
  {
    hide TakeBound, PrepareStep, TriggerStep, HasJobStep, OwnStealStep, OwnCasStep, ReleaseStep;
    if s.phase.Prepare? {
      PrepareRest(s, e);
    } else if s.phase.Trigger? || TailPhase(s.phase) {
      TailRest(s, e);
    }
  }

  lemma SettleStrays(s: Sys, e: Env)
    requires s.Sys? && 0 <= s.owner < |s.ws| && s.phase.Settle? && SchedulerStep(s, e).Sys?
    ensures HasStray(SchedulerStep(s, e).services) <==> HasStray(s.services)
  {
    hide HasStray;
    SameLosses(s.services, SchedulerStep(s, e).services);
  }

  lemma RouteStrays(s: Sys, e: Env)
    requires s.Sys? && Control(s) && Owned(s) && s.phase.Route? && AllowedRoute(s, e) && 0 <= s.owner < |s.ws|
    requires SchedulerStep(s, e).Sys?
    ensures HasStray(SchedulerStep(s, e).services) <==> HasStray(s.services) || Drops(s, s.owner, e)
  {
    hide Owned, Control, HasStray;
    if s.phase.jobs != [] {
      RoutedHead(s);
      if s.services[s.phase.jobs[0]].status == Dead { ReportStrays(s, e); } else { MessageStrays(s, e); }
    }
  }

  lemma CheckedTo(s: Sys, to: nat, p: Phase)
    requires s.Sys? && CheckRoute(s, to, p).Sys?
    ensures HasStray(CheckRoute(s, to, p).services) <==> HasStray(s.services)
  {
    hide HasStray, SetStatus;
    SetLosses(s.services, to, Schedule, 0);
  }

  // The report of a death.
  lemma ReportStrays(s: Sys, e: Env)
    requires s.Sys? && s.phase.Route? && s.phase.jobs != [] && 0 <= s.owner < |s.ws| && SchedulerStep(s, e).Sys?
    requires s.phase.jobs[0] in s.services
    requires var v := s.services[s.phase.jobs[0]]; v.status == Dead && (v.signal ==> v.loss == Intact)
    ensures HasStray(SchedulerStep(s, e).services) <==> HasStray(s.services) || Drops(s, s.owner, e)
  {
    hide HasStray, CheckRoute, SetLoss;
    var id := s.phase.jobs[0];
    var m := s.services[id := s.services[id].(signal := false)];
    if StatusOf(s.services, ROOT) == Dead {
      LessLoss(s.services, id);
    } else if e.flag {
      LostHere(m, id);
    } else {
      OneLoss(s.services, id, s.services[id].(signal := false));
      CheckedTo(s.(services := m), ROOT, Route(s.phase.jobs[1..]));
    }
  }

  lemma LostHere(m: Services, id: nat)
    requires id in m
    ensures HasStray(SetLoss(m, id, Requeued))
  {
    assert SetLoss(m, id, Requeued)[id].loss != Intact;
  }

  // The message of a living service.
  lemma MessageStrays(s: Sys, e: Env)
    requires s.Sys? && Control(s) && s.phase.Route? && s.phase.jobs != [] && 0 <= s.owner < |s.ws| && AllowedRoute(s, e)
    requires StatusOf(s.services, s.phase.jobs[0]) != Dead && SchedulerStep(s, e).Sys?
    ensures HasStray(SchedulerStep(s, e).services) <==> HasStray(s.services)
  {
    hide HasStray, CheckRoute, Control;
    Facts2(s);
    var m := s.services;
    match e.message {
      case NoMessage =>
      case To(to) => CheckedTo(s, to, Settle(s.phase.jobs));
      case New(x) => SameLosses(m, m[x := Service(Uninitialized, false, Intact, -1)]);
      case Delete(x) =>
        if x in m { assert GoodService(m[x], |s.ws|); }
        LessLoss(m, x);
    }
  }

  lemma IsStray(m: Services, x: nat)
    requires x in m && m[x].loss != Intact
    ensures HasStray(m)
  {
  }

  // A stray appears when a report finds root's mailbox full, and never goes.
  lemma SchedulerStrays(s: Sys, e: Env)
    requires s.Sys? && Control(s) && Owned(s) && s.phase != Off && AllowedRoute(s, e) && 0 <= s.owner < |s.ws|
    requires SchedulerStep(s, e).Sys?
    ensures HasStray(SchedulerStep(s, e).services) <==> HasStray(s.services) || Drops(s, s.owner, e)
  {
    hide Owned, Control, HasStray, SchedulerStep, AllowedRoute;
    if s.phase.Route? {
      RouteStrays(s, e);
    } else if s.phase.Settle? {
      SettleStrays(s, e);
    } else {
      OnlyRouting(s, e);
    }
  }

  // ------------------------------------------------------------ root is gone

  lemma WorkerRootGone(s: Sys, i: nat, e: Env)
    requires s.Sys? && i < |s.ws| && Control(s) && Owned(s) && Allowed(s, i, e) && (s.phase == Off || s.owner != i)
    requires WorkerStep(s, i, e).Sys? && StatusOf(s.services, ROOT) == Dead
    ensures StatusOf(WorkerStep(s, i, e).services, ROOT) == Dead
  {
    hide Owned, Control;
    if s.ws[i].pc.Run? {
      HeldIsOwned(s, i);
    } else if s.ws[i].pc.Check? {
      CheckOwned(s, i, e);
    } else {
      ServicesKept(s, i, e);
    }
  }

  lemma SchedulerRootGone(s: Sys, e: Env)
    requires s.Sys? && Control(s) && Owned(s) && s.phase != Off && AllowedRoute(s, e) && 0 <= s.owner < |s.ws|
    requires SchedulerStep(s, e).Sys? && StatusOf(s.services, ROOT) == Dead
    ensures StatusOf(SchedulerStep(s, e).services, ROOT) == Dead
  {
    hide Owned, Control;
    if s.phase.Route? {
      if s.phase.jobs != [] { RoutedHead(s); }
    } else if s.phase.Settle? {
      Facts2(s);
    } else {
      OnlyRouting(s, e);
    }
  }

  // A worker's step starts the end just when root exits in it.
  lemma WorkerStops(s: Sys, i: nat, e: Env)
    requires s.Sys? && i < |s.ws| && Control(s) && Owned(s) && Allowed(s, i, e) && (s.phase == Off || s.owner != i)
    requires !Quits(s.ws[i].pc) && WorkerStep(s, i, e).Sys? && !Stopping(s.ws)
    requires forall k | 0 <= k < |s.ws| :: !s.ws[k].term
    ensures Stopping(WorkerStep(s, i, e).ws) ==> StatusOf(WorkerStep(s, i, e).services, ROOT) == Dead
  {
    hide Owned, Control, WorkerStep, NextWorker;
    Effect(s, i, e);
    var t := WorkerStep(s, i, e);
    if Stopping(t.ws) {
      var k :| 0 <= k < |t.ws| && Stopper(t.ws[k].pc);
      assert !Stopper(s.ws[k].pc);
      assert k == i;
      Stopped(s, i, e);
    }
  }

  lemma Stopped(s: Sys, i: nat, e: Env)
    requires s.Sys? && i < |s.ws| && Owned(s) && Control(s) && !s.ws[i].term && !Stopper(s.ws[i].pc)
    requires Stopper(NextWorker(s, i, e).pc)
    ensures WorkerStep(s, i, e).Sys? ==> StatusOf(WorkerStep(s, i, e).services, ROOT) == Dead
  {
    hide Owned, Control, NextWorker, WorkerStep;
    OnlyRootStops(s, i, e);
    HeldIsOwned(s, i);
    RootDies(s, i, e);
  }

  lemma OnlyRootStops(s: Sys, i: nat, e: Env)
    requires s.Sys? && i < |s.ws| && !s.ws[i].term && !Stopper(s.ws[i].pc) && Stopper(NextWorker(s, i, e).pc)
    ensures s.ws[i].pc == SchedModel.Run(ROOT) && e.event.Exit?
  {
    hide BindingOf, OwnStep;
    NoStop(s.ws[i], s.blocked);
  }

  lemma RootDies(s: Sys, i: nat, e: Env)
    requires s.Sys? && i < |s.ws| && s.ws[i].pc == SchedModel.Run(ROOT) && e.event.Exit?
    ensures WorkerStep(s, i, e).Sys? && StatusOf(WorkerStep(s, i, e).services, ROOT) == Dead
  {
  }

  lemma NoStop(w: Worker, blocked: bool)
    requires !w.term && !Stopper(w.pc)
    ensures !Stopper(OwnStep(w, blocked).pc)
  {
    hide OwnStep;
    OwnStepPcs(w, blocked);
  }

  // ----------------------------------------------------------- the invariant

  lemma StopperStays(ws: seq<Worker>, vs: seq<Worker>)
    requires |vs| == |ws| && forall k | 0 <= k < |ws| && Stopper(ws[k].pc) :: Stopper(vs[k].pc)
    ensures Stopping(ws) ==> Stopping(vs)
  {
    if Stopping(ws) {
      var k :| 0 <= k < |ws| && Stopper(ws[k].pc);
      assert Stopper(vs[k].pc);
    }
  }

  lemma QuitsTrace(s: Sys, i: nat, e: Env)
    requires s.Sys? && i < |s.ws| && Quits(s.ws[i].pc)
    ensures var t := WorkerStep(s, i, e);
      && t.Sys? && |t.ws| == |s.ws| && Stopping(s.ws) && Stopping(t.ws)
      && t.owner == s.owner && t.started == s.started && t.phase == s.phase && t.services == s.services
    ensures forall k | 0 <= k < |s.ws| :: Collected(s.ws[k], s.phase, k) ==> Collected(WorkerStep(s, i, e).ws[k], s.phase, k)
  {
    hide WorkerStep;
    QuitsEffect(s, i, e);
    assert Stopper(s.ws[i].pc) && Stopper(WorkerStep(s, i, e).ws[i].pc);
  }

  lemma OwnStepTrace(w: Worker, blocked: bool, p: Phase, k: nat)
    requires Collected(w, p, k)
    ensures Collected(OwnStep(w, blocked), p, k) && OwnStep(w, blocked).term == w.term
    ensures OwnStep(w, blocked).pc.Redo? ==> w.pc.Redo?
  {
    hide OwnStep;
    OwnStepSlots(w, blocked);
    OwnStepPcs(w, blocked);
  }

  lemma MoverTrace(s: Sys, i: nat, e: Env)
    requires s.Sys? && i < |s.ws| && !Quits(s.ws[i].pc) && !s.ws[i].pc.Redo? && Collected(s.ws[i], s.phase, i)
    ensures var v := NextWorker(s, i, e);
      v.term == s.ws[i].term && (v.pc.Complete3? ==> v.done == 0) && (v.pc.Redo? ==> s.ws[i].pc.Complete2?)
  {
    hide OwnStep, NextWorker, Collected;
    if OwnPc(s.ws[i].pc) {
      NextIsOwn(s, i, e);
      OwnStepTrace(s.ws[i], s.blocked, s.phase, i);
      CollectedIs(OwnStep(s.ws[i], s.blocked), s.phase, i);
    } else {
      HandTrace(s, i, e);
    }
  }

  // The worker has a job in hand, or tries to get one or the scheduler.
  lemma HandTrace(s: Sys, i: nat, e: Env)
    requires s.Sys? && i < |s.ws| && !Quits(s.ws[i].pc) && !OwnPc(s.ws[i].pc) && Collected(s.ws[i], s.phase, i)
    ensures var v := NextWorker(s, i, e);
      v.term == s.ws[i].term && (v.pc.Complete3? ==> v.done == 0) && (v.pc.Redo? ==> s.ws[i].pc.Complete2?)
  {
    hide OwnStep, StatusOf, Rebind, Collected;
    CollectedIs(s.ws[i], s.phase, i);
    if s.ws[i].pc.After? { RebindTrace(s.ws[i], s.ws[i].pc.id, s.ws[i].pc.dead, BindingOf(s.services, s.ws[i].pc.id) == i); }
  }

  lemma CollectedIs(w: Worker, p: Phase, k: nat)
    requires Collected(w, p, k)
    ensures w.pc.Complete3? ==> w.done == 0
  {
  }

  lemma RebindTrace(w: Worker, id: nat, dead: bool, bound: bool)
    ensures var v := Rebind(w, id, dead, bound); v.pc.Complete? && v.term == w.term
  {
  }

  lemma Complete2Enters(s: Sys, i: nat, e: Env)
    requires s.Sys? && i < |s.ws| && s.ws[i].pc.Complete2?
    ensures WorkerStep(s, i, e).Sys? && WorkerStep(s, i, e).phase == Collect(0, [])
  {
  }

  lemma RedoOwns(s: Sys, i: nat)
    requires s.Sys? && i < |s.ws| && Control(s) && (s.phase == Off || s.owner != i)
    ensures !s.ws[i].pc.Redo?
  {
  }

  // Who is not the owner is at no point where his done slot matters.
  lemma OthersTrace(s: Sys, t: Sys, i: nat, k: nat)
    requires s.Sys? && t.Sys? && i < |s.ws| && k < |s.ws| == |t.ws| && k != i && t.ws[k] == s.ws[k]
    requires Control(s) && Control(t) && Collected(s.ws[k], s.phase, k)
    requires t.phase == s.phase || t.owner == i
    ensures Collected(t.ws[k], t.phase, k)
  {
  }

  lemma MoverCollected(s: Sys, i: nat, e: Env)
    requires s.Sys? && i < |s.ws| && Control(s) && (s.phase == Off || s.owner != i) && !Quits(s.ws[i].pc)
    requires WorkerStep(s, i, e).Sys? && Collected(s.ws[i], s.phase, i)
    ensures Collected(NextWorker(s, i, e), WorkerStep(s, i, e).phase, i) && NextWorker(s, i, e).term == s.ws[i].term
  {
    hide Control, WorkerStep, NextWorker;
    RedoOwns(s, i);
    MoverTrace(s, i, e);
    if s.ws[i].pc.Complete2? { Complete2Enters(s, i, e); }
  }

  lemma PhaseTaken(s: Sys, i: nat, e: Env)
    requires s.Sys? && i < |s.ws| && Control(s) && (s.phase == Off || s.owner != i) && !Quits(s.ws[i].pc)
    requires WorkerStep(s, i, e).Sys? && Control(WorkerStep(s, i, e))
    ensures var t := WorkerStep(s, i, e);
      && (t.phase == s.phase || t.owner == i) && (t.owner == s.owner || t.started) && (s.started ==> t.started)
  {
    hide Control, WorkerStep, NextWorker;
    if s.phase == Off {
      IdleEffect(s, i, e);
      Effect(s, i, e);
      OwnerOnly(WorkerStep(s, i, e), i);
    } else {
      RoundKept(s, i, e);
    }
  }

  lemma OwnerOnly(s: Sys, i: nat)
    requires s.Sys? && Control(s) && i < |s.ws|
    ensures OwnerPc(s.ws[i].pc) ==> s.owner == i
  {
  }

  lemma WorkerTraced(s: Sys, i: nat, e: Env)
    requires s.Sys? && i < |s.ws| && Control(s) && Owned(s) && Traced(s) && Allowed(s, i, e)
    requires (s.phase == Off || s.owner != i) && WorkerStep(s, i, e).Sys? && Control(WorkerStep(s, i, e))
    ensures Traced(WorkerStep(s, i, e))
  {
    hide Control, Owned, HasStray, WorkerStep, Allowed, Collected, Stopping, NextWorker;
    var t := WorkerStep(s, i, e);
    WorkerStrays(s, i, e);
    if StatusOf(s.services, ROOT) == Dead { WorkerRootGone(s, i, e); }
    if Quits(s.ws[i].pc) {
      QuitsTrace(s, i, e);
    } else {
      Effect(s, i, e);
      PhaseTaken(s, i, e);
      MoverCollected(s, i, e);
      forall k | 0 <= k < |t.ws| ensures Collected(t.ws[k], t.phase, k) {
        if k != i { OthersTrace(s, t, i, k); }
      }
      MovesStop(s, i, e);
    }
  }

  lemma MovesStop(s: Sys, i: nat, e: Env)
    requires s.Sys? && i < |s.ws| && Control(s) && Owned(s) && Traced(s) && Allowed(s, i, e)
    requires (s.phase == Off || s.owner != i) && WorkerStep(s, i, e).Sys? && !Quits(s.ws[i].pc)
    ensures Stopping(s.ws) ==> Stopping(WorkerStep(s, i, e).ws)
    ensures !Stopping(s.ws) && Stopping(WorkerStep(s, i, e).ws) ==> StatusOf(WorkerStep(s, i, e).services, ROOT) == Dead
  {
    hide Control, Owned, HasStray, WorkerStep, Allowed, Collected, Stopping, NextWorker;
    Facts(s, i);
    Effect(s, i, e);
    MoverStops(s, i, e);
    StopperStays(s.ws, WorkerStep(s, i, e).ws);
    if !Stopping(s.ws) { WorkerStops(s, i, e); }
  }

  // The scheduler sets no term_signal, and empties the owner's done slot
  // before it goes past it.
  predicate TraceKept(w: Worker, v: Worker, p: Phase, q: Phase, k: nat) {
    v.term == w.term && (Collected(w, p, k) ==> Collected(v, q, k))
  }

  lemma CollectTrace(s: Sys, e: Env, k: nat)
    requires s.Sys? && s.phase.Collect? && 0 <= s.owner < |s.ws| && k < |s.ws|
    ensures var t := SchedulerStep(s, e); t.Sys? && |t.ws| == |s.ws| && TraceKept(s.ws[k], t.ws[k], s.phase, t.phase, k)
  {
  }

  lemma TailTrace(s: Sys, e: Env, k: nat)
    requires s.Sys? && Control(s) && (TailPhase(s.phase) || s.phase.Trigger?) && 0 <= s.owner < |s.ws| && k < |s.ws|
    ensures var t := SchedulerStep(s, e); t.Sys? && |t.ws| == |s.ws| && TraceKept(s.ws[k], t.ws[k], s.phase, t.phase, k)
  {
    hide Control;
    Facts2(s);
  }

  lemma PendingTrace(s: Sys, e: Env, k: nat)
    requires s.Sys? && 0 <= s.owner < |s.ws| && k < |s.ws| && (s.phase.Pending? || s.phase.PendingCas?)
    ensures var t := SchedulerStep(s, e); t.Sys? && |t.ws| == |s.ws| && TraceKept(s.ws[k], t.ws[k], s.phase, t.phase, k)
  {
  }

  lemma PlaceTrace(s: Sys, e: Env, k: nat)
    requires s.Sys? && 0 <= s.owner < |s.ws| && k < |s.ws| && SchedulerStep(s, e).Sys? && (s.phase.Count? || s.phase.Assign?)
    ensures var t := SchedulerStep(s, e); |t.ws| == |s.ws| && TraceKept(s.ws[k], t.ws[k], s.phase, t.phase, k)
  {
    hide TraceKept, TakeBound;
    var p := SchedulerStep(s, e).phase;
    SameTrace(s.ws[k], s.phase, p, k);
    SlotsTrace(s.ws[k], s.phase, p, k);
  }

  lemma SlotsTrace(w: Worker, p: Phase, q: Phase, k: nat)
    requires !p.Collect? && !q.Collect?
    ensures w.queue != [] ==> TraceKept(w, TakeBound(w), p, q, k)
    ensures forall job: nat :: TraceKept(w, w.(ready := job), p, q, k)
  {
  }

  lemma WakeTrace(s: Sys, e: Env, k: nat)
    requires s.Sys? && 0 <= s.owner < |s.ws| && k < |s.ws|
    requires s.phase.CountWake? || s.phase.PrepareWake? || s.phase.AssignWake?
    ensures var t := SchedulerStep(s, e); t.Sys? && |t.ws| == |s.ws| && TraceKept(s.ws[k], t.ws[k], s.phase, t.phase, k)
  {
  }

  lemma PrepareTrace(s: Sys, e: Env, k: nat)
    requires s.Sys? && 0 <= s.owner < |s.ws| && k < |s.ws| && SchedulerStep(s, e).Sys? && s.phase.Prepare?
    ensures var t := SchedulerStep(s, e); |t.ws| == |s.ws| && TraceKept(s.ws[k], t.ws[k], s.phase, t.phase, k)
  {
  }

  lemma RouteTrace(s: Sys, e: Env)
    requires s.Sys? && 0 <= s.owner < |s.ws| && SchedulerStep(s, e).Sys? && (s.phase.Route? || s.phase.Settle?)
    ensures SchedulerStep(s, e).ws == s.ws && !SchedulerStep(s, e).phase.Collect?
  {
  }

  lemma SchedulerTrace(s: Sys, e: Env, k: nat)
    requires s.Sys? && Control(s) && s.phase != Off && 0 <= s.owner < |s.ws| && k < |s.ws| && SchedulerStep(s, e).Sys?
    ensures var t := SchedulerStep(s, e); |t.ws| == |s.ws| && TraceKept(s.ws[k], t.ws[k], s.phase, t.phase, k)
  {
    hide Control, SchedulerStep, TraceKept;
    if s.phase.Collect? {
      CollectTrace(s, e, k);
    } else if s.phase.Prepare? {
      PrepareTrace(s, e, k);
    } else if s.phase.Route? || s.phase.Settle? {
      RouteTrace(s, e);
      SameTrace(s.ws[k], s.phase, SchedulerStep(s, e).phase, k);
    } else if TailPhase(s.phase) || s.phase.Trigger? {
      TailTrace(s, e, k);
    } else if s.phase.Pending? || s.phase.PendingCas? {
      PendingTrace(s, e, k);
    } else if s.phase.Count? || s.phase.Assign? {
      PlaceTrace(s, e, k);
    } else {
      WakeTrace(s, e, k);
    }
  }

  lemma SameTrace(w: Worker, p: Phase, q: Phase, k: nat)
    requires !p.Collect? && !q.Collect?
    ensures TraceKept(w, w, p, q, k)
  {
  }

  predicate FrontPhase(p: Phase) {
    p.Collect? || p.Route? || p.Settle? || p.Pending? || p.PendingCas? || p.Count? || p.CountWake?
  }

  lemma FrontStays(s: Sys, e: Env)
    requires s.Sys? && 0 <= s.owner < |s.ws| && FrontPhase(s.phase) && SchedulerStep(s, e).Sys?
    ensures SchedulerStep(s, e).started == s.started && SchedulerStep(s, e).owner == s.owner
  {
    hide TakeBound, PrepareStep;
  }

  lemma SchedulerStays(s: Sys, e: Env)
    requires s.Sys? && 0 <= s.owner < |s.ws| && s.phase != Off && SchedulerStep(s, e).Sys?
    ensures SchedulerStep(s, e).started == s.started
    ensures SchedulerStep(s, e).owner == s.owner || SchedulerStep(s, e).owner == NONE
  {
    hide TakeBound, PrepareStep, RouteStep, SettleStep, CollectStep, CountStep, PendingStep, PendingCasStep;
    if s.phase.Prepare? {
      PrepareRest(s, e);
    } else if FrontPhase(s.phase) {
      FrontStays(s, e);
    }
  }

  lemma NoNewStopper(s: Sys, e: Env)
    requires s.Sys? && Control(s) && s.phase != Off && 0 <= s.owner < |s.ws| && SchedulerStep(s, e).Sys?
    ensures Stopping(SchedulerStep(s, e).ws) <==> Stopping(s.ws)
  {
    hide Control, SchedulerStep, Stopper, Handled;
    var t := SchedulerStep(s, e);
    SchedulerPcs(s, e);
    forall k | 0 <= k < |s.ws| ensures Stopper(t.ws[k].pc) ==> Stopper(s.ws[k].pc) {
      SchedulerHandles(s, e, k);
      HandledStops(s.ws[k], t.ws[k]);
    }
    StopperStays(s.ws, t.ws);
    StopperStays(t.ws, s.ws);
  }

  lemma SchedulerTraced(s: Sys, e: Env)
    requires s.Sys? && Control(s) && Owned(s) && Traced(s) && s.phase != Off && AllowedRoute(s, e)
    requires 0 <= s.owner < |s.ws| && SchedulerStep(s, e).Sys?
    ensures Traced(SchedulerStep(s, e))
  {
    hide Control, Owned, HasStray, SchedulerStep, AllowedRoute, Collected, Stopping;
    var t := SchedulerStep(s, e);
    SchedulerStrays(s, e);
    if StatusOf(s.services, ROOT) == Dead { SchedulerRootGone(s, e); }
    SchedulerStays(s, e);
    NoNewStopper(s, e);
    SchedulerTrace(s, e, 0);
    forall k | 0 <= k < |s.ws| ensures t.ws[k].term == s.ws[k].term && Collected(t.ws[k], t.phase, k) {
      SchedulerTrace(s, e, k);
    }
  }
}
