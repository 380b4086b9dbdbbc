// No lost wake-up: the handshake of worker_sleep and worker_wakeup under the
// lock, interleaved with the stores to service_ready outside it.
module SchedWake {
  import opened SchedModel
  import opened SchedOwner
  import opened SchedDispatch
  import opened SchedEffect

  // Asleep, or past the last look at service_ready before sleeping.
  predicate Drowsy(w: Worker) {
    w.pc.Locked? || Blocked(w)
  }

  // In cond_wait with nothing to end it.
  predicate Blocked(w: Worker) {
    w.pc.Waiting? && !w.flag
  }

  // The scheduler has stored a job for worker k and is about to wake it.
  predicate AboutToWake(p: Phase, k: nat) {
    (p.CountWake? || p.PrepareWake? || p.AssignWake?) && p.k == k
  }

  predicate GoodSleeper(w: Worker, p: Phase, k: nat) {
    && (w.flag ==> w.pc.Waiting?)
    && (w.sleeping <==> w.pc.Waiting?)
    && (Drowsy(w) && w.ready != 0 ==> AboutToWake(p, k))
    && (OnTheWayToSleep(w.pc) ==> w.done == 0)
  }

  // After root's worker set every term_signal and woke worker k, it will not
  // block again.
  predicate Leaving(w: Worker) {
    w.term && (w.pc.Lock? || w.pc.Locked? ==> w.wakeup) && !Blocked(w)
  }

  ghost predicate Quitting(ws: seq<Worker>, pc: Pc) {
    match pc
    case QuitAll(k) => forall j | 0 <= j < |ws| && j < k :: ws[j].term
    case WakeAll(k) => (forall j | 0 <= j < |ws| :: ws[j].term) && forall j | 0 <= j < |ws| && j < k :: Leaving(ws[j])
    case _ => true
  }

  ghost predicate Awake(s: Sys)
    requires s.Sys?
  {
    && (forall k | 0 <= k < |s.ws| :: GoodSleeper(s.ws[k], s.phase, k))
    && (forall k | 0 <= k < |s.ws| :: Quitting(s.ws, s.ws[k].pc))
  }

  // ---------------------------------------------------------- workers' steps

  lemma OwnStepAwake(w: Worker, blocked: bool, p: Phase, k: nat)
    requires GoodSleeper(w, p, k)
    ensures GoodSleeper(OwnStep(w, blocked), p, k)
    ensures w.term ==> OwnStep(w, blocked).term
    ensures Leaving(w) ==> Leaving(OwnStep(w, blocked))
  {
  }

  lemma MoverAwake(s: Sys, i: nat, e: Env)
    requires s.Sys? && i < |s.ws| && !Quits(s.ws[i].pc) && GoodSleeper(s.ws[i], s.phase, i)
    ensures var v := NextWorker(s, i, e);
      GoodSleeper(v, s.phase, i) && Forward(s.ws[i], v) && (Quits(v.pc) ==> v.pc == QuitAll(0))
  {
    hide OwnStep, NextWorker, GoodSleeper, Forward;
    if OwnPc(s.ws[i].pc) {
      NextIsOwn(s, i, e);
      OwnStepAwake(s.ws[i], s.blocked, s.phase, i);
      OwnStepForward(s.ws[i], s.blocked, s.phase, i);
      OwnStepPc2(s.ws[i], s.blocked);
    } else {
      HandAwake(s, i, e);
    }
  }

  lemma OwnStepPc2(w: Worker, blocked: bool)
    ensures Quits(OwnStep(w, blocked).pc) ==> Quits(w.pc)
  {
    hide OwnStep;
    OwnStepPcs(w, blocked);
  }

  lemma OwnStepForward(w: Worker, blocked: bool, p: Phase, k: nat)
    requires GoodSleeper(w, p, k)
    ensures Forward(w, OwnStep(w, blocked))
  {
    hide OwnStep, Leaving, GoodSleeper;
    OwnStepAwake(w, blocked, p, k);
  }

  // A worker at none of its own points is wide awake.
  lemma HandAwake(s: Sys, i: nat, e: Env)
    requires s.Sys? && i < |s.ws| && !Quits(s.ws[i].pc) && !OwnPc(s.ws[i].pc) && GoodSleeper(s.ws[i], s.phase, i)
    ensures var v := NextWorker(s, i, e);
      GoodSleeper(v, s.phase, i) && Forward(s.ws[i], v) && (Quits(v.pc) ==> v.pc == QuitAll(0))
  {
    hide OwnStep, StatusOf, BindingOf;
  }

  // When the scheduler's phase is left, or nobody runs it, nobody is about to
  // be woken.
  lemma PhaseFree(w: Worker, p: Phase, q: Phase, k: nat)
    requires GoodSleeper(w, p, k) && !AboutToWake(p, k)
    ensures GoodSleeper(w, q, k)
  {
  }

  // What never goes back: a set term_signal, and the effect of the wake-up.
  predicate Forward(w: Worker, v: Worker) {
    (w.term ==> v.term) && (Leaving(w) ==> Leaving(v))
  }

  lemma QuittingKept(ws: seq<Worker>, vs: seq<Worker>, pc: Pc)
    requires Quitting(ws, pc) && |vs| == |ws| && forall j | 0 <= j < |ws| :: Forward(ws[j], vs[j])
    ensures Quitting(vs, pc)
  {
    hide Leaving;
  }

  // One worker replaced.
  lemma OneAwake(s: Sys, t: Sys, k: nat, w: Worker)
    requires s.Sys? && t.Sys? && Awake(s) && k < |s.ws| && t.ws == s.ws[k := w]
    requires GoodSleeper(w, t.phase, k) && Forward(s.ws[k], w)
    requires forall j | 0 <= j < |s.ws| && j != k :: GoodSleeper(s.ws[j], t.phase, j)
    requires Quitting(t.ws, w.pc)
    ensures Awake(t)
  {
    hide GoodSleeper, Leaving, Quitting;
    forall j | 0 <= j < |t.ws| ensures Quitting(t.ws, t.ws[j].pc) {
      if j != k { QuittingKept(s.ws, t.ws, s.ws[j].pc); }
    }
  }

  lemma WakeAwake(w: Worker, p: Phase, q: Phase, k: nat)
    requires GoodSleeper(w, p, k) && !w.pc.Locked?
    ensures GoodSleeper(Wake(w), q, k) && Forward(w, Wake(w)) && (w.term ==> Leaving(Wake(w)))
  {
  }

  lemma QuitAwake(s: Sys, i: nat, k: nat)
    requires s.Sys? && i < |s.ws| && k < |s.ws| && s.ws[i].pc == QuitAll(k) && Awake(s)
    ensures Awake(Quit(s, i, k))
  {
    var w := s.ws[k].(term := true);
    var t := With(s, k, w);
    assert GoodSleeper(w, s.phase, k) && Forward(s.ws[k], w);
    if k == i { assert Quitting(t.ws, QuitAll(k)); }
    QuittingKept2(s, k, w);
    OneAwake(s, t, k, w);
    var v := t.ws[i].(pc := QuitAll(k + 1));
    assert Quitting(t.ws[i := v], QuitAll(k + 1));
    OneAwake(t, With(t, i, v), i, v);
  }

  lemma QuittingKept2(s: Sys, k: nat, w: Worker)
    requires s.Sys? && Awake(s) && k < |s.ws| && Forward(s.ws[k], w) && w.pc == s.ws[k].pc
    ensures Quitting(s.ws[k := w], w.pc)
  {
    hide GoodSleeper, Leaving;
    QuittingKept(s.ws, s.ws[k := w], w.pc);
  }

  lemma WakeAllAwake(s: Sys, i: nat, k: nat)
    requires s.Sys? && i < |s.ws| && k < |s.ws| && s.ws[i].pc == WakeAll(k) && Awake(s) && !s.ws[k].pc.Locked?
    ensures Awake(WakeStep(s, i, k))
  {
    var w := Wake(s.ws[k]);
    var t := With(s, k, w);
    WakeAwake(s.ws[k], s.phase, s.phase, k);
    QuittingKept2(s, k, w);
    OneAwake(s, t, k, w);
    var v := t.ws[i].(pc := WakeAll(k + 1));
    assert Forward(t.ws[i], v) && GoodSleeper(v, t.phase, i);
    assert Quitting(s.ws, WakeAll(k)) && s.ws[k].term && Leaving(w);
    assert Quitting(t.ws[i := v], WakeAll(k + 1));
    OneAwake(t, With(t, i, v), i, v);
  }

  lemma QuitterAwake(s: Sys, i: nat, e: Env)
    requires s.Sys? && i < |s.ws| && Quits(s.ws[i].pc) && Awake(s)
    ensures WorkerStep(s, i, e).Sys? && Awake(WorkerStep(s, i, e))
  {
    hide Awake;
    var k := s.ws[i].pc.k;
    if k >= |s.ws| {
      QuitterMovesOn(s, i);
    } else if s.ws[i].pc.QuitAll? {
      QuitAwake(s, i, k);
    } else if !s.ws[k].pc.Locked? {
      WakeAllAwake(s, i, k);
    }
  }

  lemma QuitterMovesOn(s: Sys, i: nat)
    requires s.Sys? && i < |s.ws| && Quits(s.ws[i].pc) && Awake(s) && s.ws[i].pc.k >= |s.ws|
    ensures s.ws[i].pc.QuitAll? ==> Awake(Goto(s, i, WakeAll(0)))
    ensures s.ws[i].pc.WakeAll? ==> Awake(With(s, i, Leave(s.ws[i])))
  {
    var v := s.ws[i].(pc := WakeAll(0));
    if s.ws[i].pc.QuitAll? {
      assert Quitting(s.ws, s.ws[i].pc);
      OneAwake(s, With(s, i, v), i, v);
    } else {
      OneAwake(s, With(s, i, Leave(s.ws[i])), i, Leave(s.ws[i]));
    }
  }

  lemma WorkerAwake(s: Sys, i: nat, e: Env)
    requires s.Sys? && i < |s.ws| && Control(s) && Awake(s) && (s.phase == Off || s.owner != i) &&
      WorkerStep(s, i, e).Sys?
    ensures Awake(WorkerStep(s, i, e))
  {
    hide Control, Awake, WorkerStep, GoodSleeper, Quitting, Leaving, NextWorker;
    var t := WorkerStep(s, i, e);
    if Quits(s.ws[i].pc) {
      QuitterAwake(s, i, e);
    } else {
      Effect(s, i, e);
      AwakeFacts(s);
      MoverAwake(s, i, e);
      if s.phase == Off { IdleEffect(s, i, e); } else { RoundKept(s, i, e); }
      MoverDone(s, t, i, NextWorker(s, i, e));
    }
  }

  lemma AwakeFacts(s: Sys)
    requires s.Sys? && Awake(s)
    ensures forall k | 0 <= k < |s.ws| :: GoodSleeper(s.ws[k], s.phase, k)
  {
  }

  lemma MoverDone(s: Sys, t: Sys, i: nat, v: Worker)
    requires s.Sys? && t.Sys? && Awake(s) && i < |s.ws| && t.ws == s.ws[i := v]
    requires GoodSleeper(v, s.phase, i) && Forward(s.ws[i], v) && (Quits(v.pc) ==> v.pc == QuitAll(0))
    requires t.phase == s.phase || (s.phase == Off && t.phase == Collect(0, []))
    ensures Awake(t)
  {
    assert forall j | 0 <= j < |s.ws| :: s.phase == Off ==> !AboutToWake(s.phase, j);
    OneAwake(s, t, i, v);
  }

  // -------------------------------------------------------- scheduler's steps

  // The scheduler changes the slots of worker k and nothing it sleeps on.
  lemma SlotAwake(s: Sys, t: Sys, k: nat, w: Worker)
    requires s.Sys? && t.Sys? && Awake(s) && k < |s.ws| && t.ws == s.ws[k := w]
    requires forall j | 0 <= j < |s.ws| :: !AboutToWake(s.phase, j)
    requires w == s.ws[k].(ready := w.ready, done := w.done, queue := w.queue, pc := w.pc)
    requires w.pc == s.ws[k].pc || (OwnerPc(s.ws[k].pc) && (OwnerPc(w.pc) || w.pc.Top? || w.pc.CheckDone?))
    requires w.ready == s.ws[k].ready || w.ready == 0 || OwnerPc(w.pc) || AboutToWake(t.phase, k)
    requires w.done == s.ws[k].done || w.done == 0
    ensures Awake(t)
  {
    assert GoodSleeper(s.ws[k], s.phase, k) && Quitting(s.ws, s.ws[k].pc);
    assert GoodSleeper(w, t.phase, k) && Forward(s.ws[k], w);
    forall j | 0 <= j < |s.ws| && j != k ensures GoodSleeper(s.ws[j], t.phase, j) { PhaseFree(s.ws[j], s.phase, t.phase, j); }
    hide GoodSleeper, Leaving;
    if w.pc == s.ws[k].pc { QuittingKept2(s, k, w); }
    OneAwake(s, t, k, w);
  }

  lemma PhaseAwake(s: Sys, t: Sys)
    requires s.Sys? && t.Sys? && Awake(s) && t.ws == s.ws && s.ws != []
    requires forall j | 0 <= j < |s.ws| :: !AboutToWake(s.phase, j)
    ensures Awake(t)
  {
    hide Awake;
    assert t.ws == s.ws[0 := s.ws[0]];
    SlotAwake(s, t, 0, s.ws[0]);
  }

  // worker_wakeup of worker k ends the phase that announced it.
  lemma WokenAwake(s: Sys, e: Env)
    requires s.Sys? && 0 <= s.owner < |s.ws| && Awake(s) &&
      (s.phase.CountWake? || s.phase.PrepareWake? || s.phase.AssignWake?)
    ensures SchedulerStep(s, e).Sys? && Awake(SchedulerStep(s, e))
  {
    var k := s.phase.k;
    if k < |s.ws| && !s.ws[k].pc.Locked? {
      var t := SchedulerStep(s, e);
      WakeAwake(s.ws[k], s.phase, t.phase, k);
      forall j | 0 <= j < |s.ws| && j != k ensures GoodSleeper(s.ws[j], t.phase, j) { PhaseFree(s.ws[j], s.phase, t.phase, j); }
      QuittingKept2(s, k, Wake(s.ws[k]));
      OneAwake(s, t, k, Wake(s.ws[k]));
    }
  }

  lemma CollectAwake(s: Sys, e: Env)
    requires s.Sys? && 0 <= s.owner < |s.ws| && Awake(s) && (s.phase.Collect? || s.phase.Pending? || s.phase.PendingCas?)
    ensures SchedulerStep(s, e).Sys? && Awake(SchedulerStep(s, e))
  {
    hide Awake;
    var t, k := SchedulerStep(s, e), s.phase.k;
    if s.phase.Collect? && k < |s.ws| && s.ws[k].done != 0 {
      SlotAwake(s, t, k, s.ws[k].(done := 0));
    } else if s.phase.PendingCas? && k < |s.ws| && s.ws[k].ready == s.phase.job && !e.fail {
      SlotAwake(s, t, k, s.ws[k].(ready := 0));
    } else {
      PhaseAwake(s, t);
    }
  }

  lemma RouteAwake(s: Sys, e: Env)
    requires s.Sys? && 0 <= s.owner < |s.ws| && Awake(s) && (s.phase.Route? || s.phase.Settle?) &&
      SchedulerStep(s, e).Sys?
    ensures Awake(SchedulerStep(s, e))
  {
    hide Awake;
    PhaseAwake(s, SchedulerStep(s, e));
  }

  lemma PlaceAwake(s: Sys, e: Env)
    requires s.Sys? && 0 <= s.owner < |s.ws| && Awake(s) && (s.phase.Count? || s.phase.Assign?) &&
      SchedulerStep(s, e).Sys?
    ensures Awake(SchedulerStep(s, e))
  {
    hide Awake;
    var t, k := SchedulerStep(s, e), s.phase.k;
    if t.phase.CountWake? {
      SlotAwake(s, t, k, TakeBound(s.ws[k]));
    } else if t.phase.AssignWake? {
      SlotAwake(s, t, k, if s.ws[k].queue != [] then TakeBound(s.ws[k]) else s.ws[k].(ready := s.phase.prep[0]));
    } else {
      PhaseAwake(s, t);
    }
  }

  lemma PrepareAwake(s: Sys, e: Env)
    requires s.Sys? && 0 <= s.owner < |s.ws| && Awake(s) && s.phase.Prepare? && SchedulerStep(s, e).Sys?
    ensures Awake(SchedulerStep(s, e))
  {
    hide Awake;
    var t := SchedulerStep(s, e);
    if s.phase.left > 0 && s.schedule != [] {
      var job := s.schedule[0];
      var b := BindingOf(s.services, job);
      if 0 <= b < |s.ws| && |s.ws[b].queue| < BINDING_SERVICE_QUEUE {
        var w := s.ws[b].(queue := s.ws[b].queue + [job]);
        SlotAwake(s, t, b, if w.ready != 0 then w else TakeBound(w));
      } else {
        PhaseAwake(s, t);
      }
    } else {
      PhaseAwake(s, t);
    }
  }

  lemma TailAwake(s: Sys, e: Env)
    requires s.Sys? && Control(s) && Awake(s) && s.phase != Off && (TailPhase(s.phase) || s.phase.Trigger?)
    ensures 0 <= s.owner < |s.ws| && SchedulerStep(s, e).Sys? && Awake(SchedulerStep(s, e))
  {
    hide Awake, Control;
    Facts2(s);
    var t, i := SchedulerStep(s, e), s.owner;
    match s.phase {
      case Trigger =>
        SlotAwake(s, t, i, if s.ws[i].pc.Redo? then s.ws[i].(pc := Complete3(s.ws[i].pc.id)) else s.ws[i]);
      case OwnCas(k, job) =>
        if k < |s.ws| && s.ws[k].ready == job && !e.fail {
          SlotAwake(s, t, k, s.ws[k].(ready := 0));
        } else {
          PhaseAwake(s, t);
        }
      case OwnStore(job) =>
        SlotAwake(s, t, i, s.ws[i].(ready := job));
      case Release(nojob) =>
        SlotAwake(s, t, i, s.ws[i].(pc := if s.ws[i].pc.idle then CheckDone(nojob) else Top));
      case HasJob =>
        PhaseAwake(s, t);
      case OwnSteal(_) =>
        PhaseAwake(s, t);
    }
  }

  lemma SchedulerAwake(s: Sys, e: Env)
    requires s.Sys? && Control(s) && Awake(s) && s.phase != Off && 0 <= s.owner < |s.ws| && SchedulerStep(s, e).Sys?
    ensures Awake(SchedulerStep(s, e))
  {
    hide Control, Awake, SchedulerStep;
    match s.phase {
      case Collect(_, _) => CollectAwake(s, e);
      case Pending(_, _, _) => CollectAwake(s, e);
      case PendingCas(_, _, _, _) => CollectAwake(s, e);
      case Route(_) => RouteAwake(s, e);
      case Settle(_) => RouteAwake(s, e);
      case Count(_, _, _, _) => PlaceAwake(s, e);
      case Assign(_, _, _, _) => PlaceAwake(s, e);
      case CountWake(_, _, _, _) => WokenAwake(s, e);
      case PrepareWake(_, _, _) => WokenAwake(s, e);
      case AssignWake(_, _, _, _) => WokenAwake(s, e);
      case Prepare(_, _) => PrepareAwake(s, e);
      case _ => TailAwake(s, e);
    }
  }
}
