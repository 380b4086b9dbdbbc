// No stranded work: when the scheduler is free and work is left in a queue,
// some worker has a job ready, in hand or done, and will come back for more.
module SchedStrand {
  import opened SchedModel
  import opened SchedOwner
  import opened SchedDispatch
  import opened SchedEffect

  // Root has quit: its worker is stopping the others, or has.
  predicate Stopper(pc: Pc) {
    pc.QuitAll? || pc.WakeAll? || pc.Exited?
  }

  ghost predicate Stopping(ws: seq<Worker>) {
    exists k :: 0 <= k < |ws| && Stopper(ws[k].pc)
  }

  // The worker has a job, in some form, and will ask the scheduler again.
  predicate Engaged(w: Worker) {
    w.ready != 0 || w.done != 0 || Held(w.pc).0 != 0
  }

  ghost predicate Busy(ws: seq<Worker>) {
    exists k :: 0 <= k < |ws| && Engaged(ws[k])
  }

  ghost predicate NoQueues(ws: seq<Worker>, n: nat) {
    forall k | 0 <= k < n && k < |ws| :: ws[k].queue == []
  }

  lemma {:induction false} NobodyHolds(ws: seq<Worker>, x: nat, k: Kind)
    requires x != 0 && forall w | w in ws :: !Engaged(w) && w.queue == []
    ensures InWorkers(ws, x, k) == 0
  {
    if ws != [] {
      assert ws[0] in ws && forall w | w in ws[1..] :: w in ws;
      NobodyHolds(ws[1..], x, k);
    }
  }

  // Nothing waits in the schedule queue or a binding queue.
  ghost predicate NoWork(s: Sys)
    requires s.Sys?
  {
    s.schedule == [] && NoQueues(s.ws, |s.ws|)
  }

  ghost predicate Tended(s: Sys)
    requires s.Sys?
  {
    match s.phase
    case Off => s.started ==> Busy(s.ws) || NoWork(s)
    case Count(k, free, jobs, _) => k <= |s.ws| && free <= k && (Busy(s.ws) || (free == k && NoQueues(s.ws, k)))
    case CountWake(k, free, _, _) => k < |s.ws| && free <= k && Busy(s.ws)
    case Prepare(left, prep) => Busy(s.ws) || prep != [] || (left > 0 && NoQueues(s.ws, |s.ws|))
    case PrepareWake(_, _, _) => Busy(s.ws)
    case Assign(_, _, _, prep) => Busy(s.ws) || prep != [] || NoWork(s)
    case AssignWake(_, _, _, _) => Busy(s.ws)
    case Trigger => Busy(s.ws) || NoWork(s)
    case HasJob => Busy(s.ws) || NoWork(s)
    case OwnSteal(_) => Busy(s.ws) || NoWork(s)
    case OwnCas(_, _) => Busy(s.ws) || NoWork(s)
    case Release(_) => Busy(s.ws) || NoWork(s)
    case _ => true
  }

  ghost predicate Strand(s: Sys)
    requires s.Sys?
  {
    Stopping(s.ws) || Tended(s)
  }

  // ---------------------------------------------------------- workers' steps

  lemma OwnStepActive(w: Worker, blocked: bool)
    ensures Engaged(OwnStep(w, blocked)) <==> Engaged(w)
    ensures OwnStep(w, blocked).queue == w.queue
  {
    hide OwnStep, Held;
    OwnStepTokens(w, blocked);
  }

  // A worker's own step keeps it active, unless root quits in it.
  lemma MoverActive(s: Sys, i: nat, e: Env)
    requires s.Sys? && i < |s.ws| && GoodPc(s.ws[i].pc) && !Quits(s.ws[i].pc)
    ensures Engaged(s.ws[i]) ==> Engaged(NextWorker(s, i, e)) || Stopper(NextWorker(s, i, e).pc)
  {
    hide OwnStep, StatusOf, BindingOf, Rebind;
    var w := s.ws[i];
    if OwnPc(w.pc) {
      OwnStepActive(w, s.blocked);
    } else if w.pc.After? {
      RebindActive(w, w.pc.id, w.pc.dead, BindingOf(s.services, w.pc.id) == i);
    } else if w.pc.Run? {
      RunActive(s, i, e);
    } else if w.pc.Complete? || w.pc.Complete2? || w.pc.Complete3? {
      CompleteActive(s, i, e);
    }
  }

  lemma RebindActive(w: Worker, id: nat, dead: bool, bound: bool)
    requires id != 0
    ensures Engaged(Rebind(w, id, dead, bound))
  {
  }

  lemma RunActive(s: Sys, i: nat, e: Env)
    requires s.Sys? && i < |s.ws| && GoodPc(s.ws[i].pc) && s.ws[i].pc.Run?
    ensures Engaged(NextWorker(s, i, e)) || Stopper(NextWorker(s, i, e).pc)
  {
  }

  lemma CompleteActive(s: Sys, i: nat, e: Env)
    requires s.Sys? && i < |s.ws| && GoodPc(s.ws[i].pc)
    requires s.ws[i].pc.Complete? || s.ws[i].pc.Complete2? || s.ws[i].pc.Complete3?
    ensures Engaged(NextWorker(s, i, e))
  {
  }

  lemma MoverStops(s: Sys, i: nat, e: Env)
    requires s.Sys? && i < |s.ws| && GoodPc(s.ws[i].pc) && !Quits(s.ws[i].pc)
    ensures Stopper(s.ws[i].pc) ==> Stopper(NextWorker(s, i, e).pc)
    ensures s.ws[i].pc.AcquireFor? ==> Engaged(NextWorker(s, i, e))
  {
    hide OwnStep, StatusOf, BindingOf;
    OwnStepStops(s.ws[i], s.blocked);
  }

  lemma OwnStepStops(w: Worker, blocked: bool)
    ensures Stopper(w.pc) ==> Stopper(OwnStep(w, blocked).pc)
  {
  }

  // Workers keep busy and add no work.
  lemma StaysTended(s: Sys, t: Sys)
    requires s.Sys? && t.Sys? && Tended(s) && t.phase == s.phase && t.schedule == s.schedule && |t.ws| == |s.ws|
    requires Busy(s.ws) ==> Busy(t.ws)
    requires forall k | 0 <= k < |s.ws| :: t.ws[k].queue == s.ws[k].queue
    requires s.phase == Off ==> t.started == s.started || Busy(t.ws)
    ensures Tended(t)
  {
    hide Busy;
  }

  lemma MoverStrand(s: Sys, t: Sys, i: nat, v: Worker)
    requires s.Sys? && t.Sys? && Strand(s) && i < |s.ws| && t.ws == s.ws[i := v] && t.schedule == s.schedule
    requires v.queue == s.ws[i].queue && (Engaged(s.ws[i]) ==> Engaged(v) || Stopper(v.pc))
    requires Stopper(s.ws[i].pc) ==> Stopper(v.pc)
    requires t.phase == Collect(0, []) || (t.phase == s.phase && (t.started == s.started || Engaged(v)))
    ensures Strand(t)
  {
    hide Engaged;
    if Stopping(s.ws) {
      var k :| 0 <= k < |s.ws| && Stopper(s.ws[k].pc);
      assert Stopper(t.ws[k].pc);
    } else if Stopper(v.pc) {
      assert Stopper(t.ws[i].pc);
    } else if t.phase != Collect(0, []) {
      if Engaged(v) { assert Engaged(t.ws[i]); }
      if Busy(s.ws) {
        var k :| 0 <= k < |s.ws| && Engaged(s.ws[k]);
        assert Engaged(t.ws[k]);
      }
      StaysTended(s, t);
    }
  }

  lemma WorkerStrand(s: Sys, i: nat, e: Env)
    requires s.Sys? && i < |s.ws| && Control(s) && Strand(s) && (s.phase == Off || s.owner != i) &&
      WorkerStep(s, i, e).Sys?
    ensures Strand(WorkerStep(s, i, e))
  {
    hide Control, Strand, WorkerStep, Engaged, NextWorker;
    var t := WorkerStep(s, i, e);
    Facts(s, i);
    if Quits(s.ws[i].pc) {
      QuitterStrand(s, i, e);
    } else {
      Effect(s, i, e);
      MoverActive(s, i, e);
      MoverStops(s, i, e);
      SlotsOf(s, i, e);
      if s.phase == Off { StartEffect(s, i, e); } else { RoundKept(s, i, e); }
      MoverStrand(s, t, i, NextWorker(s, i, e));
    }
  }

  lemma QuitterStrand(s: Sys, i: nat, e: Env)
    requires s.Sys? && i < |s.ws| && Quits(s.ws[i].pc)
    ensures WorkerStep(s, i, e).Sys? && Strand(WorkerStep(s, i, e))
  {
    hide WorkerStep;
    QuitsEffect(s, i, e);
    assert Stopper(WorkerStep(s, i, e).ws[i].pc);
  }

  // The scheduler is taken by a worker that serves it, or holds a job.
  lemma StartEffect(s: Sys, i: nat, e: Env)
    requires s.Sys? && i < |s.ws| && s.phase == Off && WorkerStep(s, i, e).Sys?
    ensures var t := WorkerStep(s, i, e);
      t.phase == Collect(0, []) || (t.phase == Off && (t.started == s.started || s.ws[i].pc.AcquireFor?))
  {
    hide WorkerStep;
    match s.ws[i].pc {
      case Acquire(_) => AcquireIs(s, i, e);
      case AcquireFor(_) => AcquireForIs(s, i, e);
      case Complete2(_) => Complete2Is(s, i, e);
      case Complete3(_) => Complete3Is(s, i, e);
      case _ => OthersIdle(s, i, e);
    }
  }

  // -------------------------------------------------------- scheduler's steps

  lemma StopsForGood(s: Sys, t: Sys)
    requires s.Sys? && t.Sys? && Stopping(s.ws) && PcsKept(s.ws, t.ws)
    ensures Strand(t)
  {
    var k :| 0 <= k < |s.ws| && Stopper(s.ws[k].pc);
    assert Stopper(t.ws[k].pc);
  }

  ghost predicate PcsKept(ws: seq<Worker>, vs: seq<Worker>) {
    |vs| == |ws| && forall k | 0 <= k < |ws| && Stopper(ws[k].pc) :: vs[k].pc == ws[k].pc
  }

  lemma SchedulerPcs(s: Sys, e: Env)
    requires s.Sys? && Control(s) && s.phase != Off && 0 <= s.owner < |s.ws| && SchedulerStep(s, e).Sys?
    ensures PcsKept(s.ws, SchedulerStep(s, e).ws)
  {
    hide Control, SchedulerStep, Handled;
    var t := SchedulerStep(s, e);
    SchedulerHandles(s, e, 0);
    forall k | 0 <= k < |s.ws| && Stopper(s.ws[k].pc) ensures t.ws[k].pc == s.ws[k].pc {
      SchedulerHandles(s, e, k);
      HandledStops(s.ws[k], t.ws[k]);
    }
  }

  lemma HandledStops(w: Worker, v: Worker)
    requires Handled(w, v)
    ensures Stopper(w.pc) ==> v.pc == w.pc
    ensures Stopper(v.pc) ==> Stopper(w.pc)
  {
  }

  lemma BusyBy(ws: seq<Worker>, k: nat)
    requires k < |ws| && Engaged(ws[k])
    ensures Busy(ws)
  {
  }

  lemma BusyKept(ws: seq<Worker>, k: nat, w: Worker)
    requires k < |ws| && (Engaged(ws[k]) ==> Engaged(w))
    ensures Busy(ws) ==> Busy(ws[k := w])
  {
    if Busy(ws) {
      var j :| 0 <= j < |ws| && Engaged(ws[j]);
      assert Engaged(ws[k := w][j]);
    }
  }

  // Step 4 finds a job for every worker with a binding queue.
  lemma CountTended(s: Sys, e: Env)
    requires s.Sys? && Control(s) && Owned(s) && Tended(s) && s.phase.Count? && 0 <= s.owner < |s.ws|
    ensures SchedulerStep(s, e).Sys? ==> Tended(SchedulerStep(s, e))
  {
    hide Control, Owned, Busy;
    Facts2(s);
    var Count(k, free, jobs, from) := s.phase;
    if k < |s.ws| {
      if s.ws[k].ready != 0 {
        BusyBy(s.ws, k);
      } else if s.ws[k].queue != [] {
        NotNull(s, k);
        BusyBy(s.ws[k := TakeBound(s.ws[k])], k);
      }
    }
  }

  lemma WakeTended(s: Sys, e: Env)
    requires s.Sys? && Tended(s) && (s.phase.CountWake? || s.phase.PrepareWake? || s.phase.AssignWake?) &&
      0 <= s.owner < |s.ws|
    ensures SchedulerStep(s, e).Sys? && Tended(SchedulerStep(s, e))
  {
    hide Busy;
    var k := s.phase.k;
    if k < |s.ws| && !s.ws[k].pc.Locked? { BusyKept(s.ws, k, Wake(s.ws[k])); }
  }

  // Step 5 prepares a service, finds a busy worker, or empties the queue.
  lemma PrepareTended(s: Sys, e: Env)
    requires s.Sys? && Control(s) && Owned(s) && Tended(s) && s.phase.Prepare? && 0 <= s.owner < |s.ws|
    ensures SchedulerStep(s, e).Sys? ==> Tended(SchedulerStep(s, e))
  {
    hide Control, Owned, Busy;
    if s.phase.left > 0 && s.schedule != [] {
      var job := s.schedule[0];
      var b := BindingOf(s.services, job);
      if 0 <= b < |s.ws| { PrepareBusy(s, b, job); }
    }
  }

  lemma PrepareBusy(s: Sys, b: nat, job: nat)
    requires s.Sys? && Control(s) && Owned(s) && b < |s.ws| && job in s.schedule
    ensures var w := s.ws[b].(queue := s.ws[b].queue + [job]);
      Busy(s.ws[b := if w.ready != 0 then w else TakeBound(w)])
  {
    hide Control, Owned, Busy;
    Facts2(s);
    QueuedIsOwned(s, job);
    var w := s.ws[b].(queue := s.ws[b].queue + [job]);
    if s.ws[b].queue != [] { NotNull(s, b); }
    BusyBy(s.ws[b := if w.ready != 0 then w else TakeBound(w)], b);
  }

  // Step 6 leaves a worker with a job, if there was one to give.
  lemma GivenBusy(s: Sys, k: nat)
    requires s.Sys? && Control(s) && Owned(s) && s.phase.Assign? && s.phase.prep != [] && k < |s.ws|
    ensures s.ws[k].queue != [] ==> Busy(s.ws[k := TakeBound(s.ws[k])])
    ensures Busy(s.ws[k := s.ws[k].(ready := s.phase.prep[0])])
  {
    hide Control, Owned, Busy;
    Facts2(s);
    var prep := s.phase.prep;
    LocalIsOwned(s, prep[0]);
    if s.ws[k].queue != [] {
      NotNull(s, k);
      BusyBy(s.ws[k := TakeBound(s.ws[k])], k);
    }
    BusyBy(s.ws[k := s.ws[k].(ready := prep[0])], k);
  }

  lemma AssignTended(s: Sys, e: Env)
    requires s.Sys? && Control(s) && Owned(s) && Tended(s) && s.phase.Assign? && 0 <= s.owner < |s.ws|
    ensures SchedulerStep(s, e).Sys? ==> Tended(SchedulerStep(s, e))
  {
    hide Control, Owned, Busy, NoWork, NoQueues, TakeBound;
    var Assign(k, busy, bound, prep) := s.phase;
    if prep != [] && k < |s.ws| { GivenBusy(s, k); }
    if prep == [] || k >= |s.ws| { SameWork(s, SchedulerStep(s, e)); }
  }

  lemma SameWork(s: Sys, t: Sys)
    requires s.Sys?
    ensures t.Sys? && t.ws == s.ws && t.schedule == s.schedule ==> (NoWork(t) <==> NoWork(s))
  {
  }

  lemma TriggerTended(s: Sys, e: Env)
    requires s.Sys? && Control(s) && Tended(s) && s.phase.Trigger? && 0 <= s.owner < |s.ws|
    ensures SchedulerStep(s, e).Sys? && Tended(SchedulerStep(s, e))
  {
    hide Control, Busy;
    var i := s.owner;
    if s.ws[i].pc.Redo? { BusyKept(s.ws, i, s.ws[i].(pc := Complete3(s.ws[i].pc.id))); }
  }

  lemma StealTended(s: Sys, e: Env)
    requires s.Sys? && Tended(s) && (s.phase.HasJob? || s.phase.OwnSteal? || s.phase.OwnCas?) && 0 <= s.owner < |s.ws|
    ensures SchedulerStep(s, e).Sys? && Tended(SchedulerStep(s, e))
  {
    hide Busy, NoWork, NoQueues;
    var t := SchedulerStep(s, e);
    if !t.phase.OwnStore? { SameWork(s, t); }
  }

  lemma EndTended(s: Sys, e: Env)
    requires s.Sys? && Control(s) && Tended(s) && (s.phase.OwnStore? || s.phase.Release?) && 0 <= s.owner < |s.ws|
    ensures SchedulerStep(s, e).Sys? && Tended(SchedulerStep(s, e))
  {
    hide Control, Busy;
    Facts2(s);
    var i := s.owner;
    if s.phase.OwnStore? {
      BusyBy(s.ws[i := s.ws[i].(ready := s.phase.job)], i);
    } else {
      BusyKept(s.ws, i, s.ws[i].(pc := if s.ws[i].pc.idle then CheckDone(s.phase.nojob) else Top));
    }
  }

  // Before step 4 nothing is claimed, and step 4 starts with no claim.
  lemma EarlyTended(s: Sys, e: Env)
    requires s.Sys? && 0 <= s.owner < |s.ws| && SchedulerStep(s, e).Sys?
    requires s.phase.Collect? || s.phase.Pending? || s.phase.PendingCas?
    ensures Tended(SchedulerStep(s, e))
  {
    hide Busy;
  }

  lemma RouteTended(s: Sys, e: Env)
    requires s.Sys? && 0 <= s.owner < |s.ws| && SchedulerStep(s, e).Sys? && (s.phase.Route? || s.phase.Settle?)
    ensures Tended(SchedulerStep(s, e))
  {
    hide Busy;
    var t := SchedulerStep(s, e);
    assert t.phase.Route? || t.phase.Settle? || t.phase.Pending?;
  }

  lemma SchedulerStrand(s: Sys, e: Env)
    requires s.Sys? && Control(s) && Owned(s) && Strand(s) && s.phase != Off && 0 <= s.owner < |s.ws| &&
      SchedulerStep(s, e).Sys?
    ensures Strand(SchedulerStep(s, e))
  {
    hide Control, Owned, Tended, SchedulerStep, Stopping, Stopper;
    if Stopping(s.ws) {
      SchedulerPcs(s, e);
      StopsForGood(s, SchedulerStep(s, e));
    } else {
      match s.phase {
        case Collect(_, _) => EarlyTended(s, e);
        case Pending(_, _, _) => EarlyTended(s, e);
        case PendingCas(_, _, _, _) => EarlyTended(s, e);
        case Route(_) => RouteTended(s, e);
        case Settle(_) => RouteTended(s, e);
        case Count(_, _, _, _) => CountTended(s, e);
        case CountWake(_, _, _, _) => WakeTended(s, e);
        case Prepare(_, _) => PrepareTended(s, e);
        case PrepareWake(_, _, _) => WakeTended(s, e);
        case Assign(_, _, _, _) => AssignTended(s, e);
        case AssignWake(_, _, _, _) => WakeTended(s, e);
        case Trigger => TriggerTended(s, e);
        case HasJob => StealTended(s, e);
        case OwnSteal(_) => StealTended(s, e);
        case OwnCas(_, _) => StealTended(s, e);
        case _ => EndTended(s, e);
      }
    }
  }
}
