// What a worker's step can change, and what the scheduler's, in one place.
module SchedEffect {
  import opened SchedModel
  import opened SchedOwner
  import opened SchedDispatch

  // Worker i after its step: the record that replaces the old one.
  function NextWorker(s: Sys, i: nat, e: Env): Worker
    requires s.Sys? && i < |s.ws|
  {
    var w := s.ws[i];
    match w.pc
    case GetCas(job) => if w.ready == job && !e.fail then w.(pc := Begin(job), ready := 0) else w.(pc := Get)
    case Check(id) => w.(pc := if StatusOf(s.services, id) == Dead then After(id, false) else SchedModel.Run(id))
    case Run(id) => w.(pc := match e.event
      case Yield => After(id, false)
      case Exit => if id == ROOT then QuitAll(0) else After(id, true)
      case _ => w.pc)
    case After(id, dead) => Rebind(w, id, dead, BindingOf(s.services, id) == i)
    case Complete(id) => if w.done == 0 && !e.fail then w.(pc := Top, done := id) else w.(pc := AcquireFor(id))
    case AcquireFor(id) => w.(pc := if s.owner == NONE && !e.fail then Complete2(id) else Complete(id))
    case Complete2(id) => if w.done == 0 && !e.fail then w.(pc := Serve(false), done := id) else w.(pc := Redo(id))
    case Complete3(id) => if w.done == 0 && !e.fail then w.(pc := Serve(false), done := id) else w
    case Acquire(nojob) => w.(pc := if s.owner == NONE && !e.fail then Serve(true) else CheckDone(nojob))
    case _ => OwnStep(w, s.blocked)
  }

  lemma NextIsOwn(s: Sys, i: nat, e: Env)
    requires s.Sys? && i < |s.ws| && OwnPc(s.ws[i].pc)
    ensures NextWorker(s, i, e) == OwnStep(s.ws[i], s.blocked)
  {
    hide OwnStep, Rebind;
  }

  predicate Quits(pc: Pc) {
    pc.QuitAll? || pc.WakeAll?
  }

  // What root's worker may do to the others when it quits.
  predicate Nudged(w: Worker, v: Worker) {
    v.ready == w.ready && v.done == w.done && v.queue == w.queue && v.binding == w.binding && (w.term ==> v.term)
  }

  ghost predicate AllNudged(ws: seq<Worker>, vs: seq<Worker>, i: nat) {
    && |vs| == |ws|
    && forall k | 0 <= k < |ws| :: Nudged(ws[k], vs[k]) && (k != i ==> vs[k].pc == ws[k].pc)
  }

  lemma NudgedBoth(s: Sys, i: nat, k: nat, v: Worker, pc: Pc)
    requires s.Sys? && i < |s.ws| && k < |s.ws| && Nudged(s.ws[k], v) && v.pc == s.ws[k].pc
    ensures var t := Goto(With(s, k, v), i, pc); t == s.(ws := t.ws) && AllNudged(s.ws, t.ws, i) && t.ws[i].pc == pc
  {
    hide Nudged;
    forall j | 0 <= j < |s.ws| ensures Nudged(s.ws[j], s.ws[j]) { NudgedSelf(s.ws[j]); }
    NudgedPc(s.ws[i], With(s, k, v).ws[i], pc);
  }

  lemma NudgedSelf(w: Worker)
    ensures Nudged(w, w)
  {
  }

  lemma NudgedPc(w: Worker, v: Worker, pc: Pc)
    requires Nudged(w, v)
    ensures Nudged(w, v.(pc := pc))
  {
  }

  lemma NudgedOne(s: Sys, i: nat, v: Worker)
    requires s.Sys? && i < |s.ws| && Nudged(s.ws[i], v)
    ensures var t := With(s, i, v); t == s.(ws := t.ws) && AllNudged(s.ws, t.ws, i) && t.ws[i] == v
  {
    hide Nudged;
    forall j | 0 <= j < |s.ws| ensures Nudged(s.ws[j], s.ws[j]) { NudgedSelf(s.ws[j]); }
  }

  lemma QuitsEffect(s: Sys, i: nat, e: Env)
    requires s.Sys? && i < |s.ws| && Quits(s.ws[i].pc)
    ensures var t := WorkerStep(s, i, e);
      && t.Sys? && t == s.(ws := t.ws) && AllNudged(s.ws, t.ws, i)
      && (Quits(t.ws[i].pc) || t.ws[i].pc.Exited?)
  {
    hide Nudged, AllNudged, Goto, With, Wake, Leave, Quits;
    QuitsPc(s.ws[i].pc);
    var w, k := s.ws[i], s.ws[i].pc.k;
    if k < |s.ws| {
      if w.pc.QuitAll? {
        Nudges(s.ws[k]);
        NudgedBoth(s, i, k, s.ws[k].(term := true), QuitAll(k + 1));
        QuitsPc(QuitAll(k + 1));
      } else {
        Nudges(s.ws[k]);
        if s.ws[k].pc.Locked? {
          NudgedSelf(w);
          NudgedOne(s, i, w);
          SameWith(s, i);
        } else {
          NudgedBoth(s, i, k, Wake(s.ws[k]), WakeAll(k + 1));
          QuitsPc(WakeAll(k + 1));
        }
      }
    } else if w.pc.QuitAll? {
      Nudges(w);
      NudgedBoth(s, i, i, w, WakeAll(0));
      SameWith(s, i);
      QuitsPc(WakeAll(0));
    } else {
      Nudges(w);
      NudgedOne(s, i, Leave(w));
    }
  }

  lemma SameWith(s: Sys, i: nat)
    requires s.Sys? && i < |s.ws|
    ensures With(s, i, s.ws[i]) == s
  {
    assert s.ws[i := s.ws[i]] == s.ws;
  }

  lemma QuitsPc(pc: Pc)
    ensures Quits(pc) <==> pc.QuitAll? || pc.WakeAll?
  {
  }

  lemma Nudges(w: Worker)
    ensures Nudged(w, w) && Nudged(w, w.(term := true)) && Nudged(w, Wake(w)) && Nudged(w, Leave(w))
    ensures Wake(w).pc == w.pc && Leave(w).pc == Exited
  {
  }

  // The step replaces one record; queue, bindings of services and, inside a
  // scheduling round, the phase are as before.
  lemma Effect(s: Sys, i: nat, e: Env)
    requires s.Sys? && i < |s.ws| && !Quits(s.ws[i].pc) && WorkerStep(s, i, e).Sys?
    ensures var t := WorkerStep(s, i, e);
      && t.ws == s.ws[i := NextWorker(s, i, e)]
      && t.schedule == s.schedule && t.size == s.size && t.blocked == s.blocked
  {
    match s.ws[i].pc {
      case GetCas(_) =>
      case Check(_) =>
      case Run(_) => RunEffect(s, i, e);
      case After(_, _) =>
      case Complete(_) =>
      case AcquireFor(_) =>
      case Complete2(_) =>
      case Complete3(_) => Complete3Effect(s, i, e);
      case Acquire(_) => AcquireEffect(s, i, e);
      case _ =>
    }
  }

  lemma RunEffect(s: Sys, i: nat, e: Env)
    requires s.Sys? && i < |s.ws| && s.ws[i].pc.Run?
    ensures var t := WorkerStep(s, i, e);
      && t.ws == s.ws[i := NextWorker(s, i, e)]
      && t.schedule == s.schedule && t.size == s.size && t.blocked == s.blocked
      && t.owner == s.owner && t.phase == s.phase && t.started == s.started
  {
    var w := s.ws[i];
    if !e.event.Yield? && !e.event.Exit? { assert s.ws == s.ws[i := w]; }
  }

  // The steps that take the scheduler or enter its phases, in one piece each.
  lemma AcquireIs(s: Sys, i: nat, e: Env)
    requires s.Sys? && i < |s.ws| && s.ws[i].pc.Acquire?
    ensures var w := s.ws[i];
      WorkerStep(s, i, e) ==
        if s.owner == NONE && !e.fail then
          s.(ws := s.ws[i := w.(pc := Serve(true))], owner := i, started := true, phase := Collect(0, []))
        else s.(ws := s.ws[i := w.(pc := CheckDone(w.pc.nojob))])
  {
  }

  lemma AcquireForIs(s: Sys, i: nat, e: Env)
    requires s.Sys? && i < |s.ws| && s.ws[i].pc.AcquireFor?
    ensures var w := s.ws[i];
      WorkerStep(s, i, e) ==
        if s.owner == NONE && !e.fail then s.(ws := s.ws[i := w.(pc := Complete2(w.pc.id))], owner := i, started := true)
        else s.(ws := s.ws[i := w.(pc := Complete(w.pc.id))])
  {
  }

  lemma Complete2Is(s: Sys, i: nat, e: Env)
    requires s.Sys? && i < |s.ws| && s.ws[i].pc.Complete2?
    ensures var w := s.ws[i];
      WorkerStep(s, i, e) ==
        if w.done == 0 && !e.fail then s.(ws := s.ws[i := w.(pc := Serve(false), done := w.pc.id)], phase := Collect(0, []))
        else s.(ws := s.ws[i := w.(pc := Redo(w.pc.id))], phase := Collect(0, []))
  {
  }

  lemma Complete3Is(s: Sys, i: nat, e: Env)
    requires s.Sys? && i < |s.ws| && s.ws[i].pc.Complete3?
    ensures var w := s.ws[i];
      WorkerStep(s, i, e) ==
        if w.done == 0 && !e.fail then s.(ws := s.ws[i := w.(pc := Serve(false), done := w.pc.id)], phase := Collect(0, []))
        else s
  {
    assert s.ws[i := s.ws[i]] == s.ws;
  }

  lemma Complete3Effect(s: Sys, i: nat, e: Env)
    requires s.Sys? && i < |s.ws| && s.ws[i].pc.Complete3?
    ensures var t := WorkerStep(s, i, e);
      && t.Sys? && t.ws == s.ws[i := NextWorker(s, i, e)]
      && t.schedule == s.schedule && t.size == s.size && t.blocked == s.blocked
  {
    hide WorkerStep;
    Complete3Is(s, i, e);
    assert s.ws[i := s.ws[i]] == s.ws;
  }

  lemma AcquireEffect(s: Sys, i: nat, e: Env)
    requires s.Sys? && i < |s.ws| && s.ws[i].pc.Acquire?
    ensures var t := WorkerStep(s, i, e);
      && t.Sys? && t.ws == s.ws[i := NextWorker(s, i, e)]
      && t.schedule == s.schedule && t.size == s.size && t.blocked == s.blocked
  {
    hide WorkerStep;
    AcquireIs(s, i, e);
  }

  // Nobody interferes with a scheduling round: owner and phase stay.
  lemma RoundKept(s: Sys, i: nat, e: Env)
    requires s.Sys? && i < |s.ws| && Control(s) && s.phase != Off && s.owner != i && WorkerStep(s, i, e).Sys?
    ensures var t := WorkerStep(s, i, e); t.owner == s.owner && t.phase == s.phase && t.started == s.started
  {
    Facts(s, i);
    hide Control;
    match s.ws[i].pc {
      case Run(_) => RunEffect(s, i, e);
      case _ =>
    }
  }

  // Outside a round the scheduler is taken, entered, or left alone.
  predicate Idles(s: Sys, t: Sys, i: nat, pc: Pc)
    requires s.Sys? && t.Sys?
  {
    && (t.phase == Off || t.phase == Collect(0, []))
    && (t.phase != Off ==> OwnerPc(pc))
    && (t.owner == s.owner || (s.owner == NONE && t.owner == i && t.started))
    && (s.started ==> t.started) && (t.started && !s.started ==> t.owner == i)
  }

  lemma AcquireIdles(s: Sys, i: nat, e: Env)
    requires s.Sys? && i < |s.ws| && s.phase == Off && (s.ws[i].pc.Acquire? || s.ws[i].pc.AcquireFor?)
    ensures WorkerStep(s, i, e).Sys? && Idles(s, WorkerStep(s, i, e), i, NextWorker(s, i, e).pc)
  {
    hide WorkerStep;
    if s.ws[i].pc.Acquire? { AcquireIs(s, i, e); } else { AcquireForIs(s, i, e); }
  }

  lemma CompleteIdles(s: Sys, i: nat, e: Env)
    requires s.Sys? && i < |s.ws| && s.phase == Off && (s.ws[i].pc.Complete2? || s.ws[i].pc.Complete3?)
    ensures WorkerStep(s, i, e).Sys? && Idles(s, WorkerStep(s, i, e), i, NextWorker(s, i, e).pc)
  {
    hide WorkerStep;
    if s.ws[i].pc.Complete2? { Complete2Is(s, i, e); } else { Complete3Is(s, i, e); }
  }

  lemma OthersIdle(s: Sys, i: nat, e: Env)
    requires s.Sys? && i < |s.ws| && s.phase == Off && WorkerStep(s, i, e).Sys?
    requires !s.ws[i].pc.Acquire? && !s.ws[i].pc.AcquireFor? && !s.ws[i].pc.Complete2? && !s.ws[i].pc.Complete3?
    ensures var t := WorkerStep(s, i, e); t.owner == s.owner && t.started == s.started && t.phase == s.phase
  {
    hide OwnStep, Rebind;
    if s.ws[i].pc.Run? { RunEffect(s, i, e); } else if Quits(s.ws[i].pc) { hide WorkerStep; QuitsEffect(s, i, e); }
  }

  lemma IdleEffect(s: Sys, i: nat, e: Env)
    requires s.Sys? && i < |s.ws| && s.phase == Off && WorkerStep(s, i, e).Sys?
    ensures Idles(s, WorkerStep(s, i, e), i, NextWorker(s, i, e).pc)
  {
    hide WorkerStep, NextWorker;
    if s.ws[i].pc.Acquire? || s.ws[i].pc.AcquireFor? {
      AcquireIdles(s, i, e);
    } else if s.ws[i].pc.Complete2? || s.ws[i].pc.Complete3? {
      CompleteIdles(s, i, e);
    } else {
      OthersIdle(s, i, e);
    }
  }

  // A worker's step never fills its ready slot nor touches a binding queue.
  lemma SlotsOf(s: Sys, i: nat, e: Env)
    requires s.Sys? && i < |s.ws| && !Quits(s.ws[i].pc)
    ensures var w, v := s.ws[i], NextWorker(s, i, e);
      v.queue == w.queue && (v.ready == w.ready || (v.ready == 0 && w.pc.GetCas? && v.pc == Begin(w.ready)))
  {
    hide OwnStep, StatusOf, BindingOf;
    OwnStepSlots(s.ws[i], s.blocked);
  }

  // Only a service that starts, runs or ends changes the services.
  lemma ServicesKept(s: Sys, i: nat, e: Env)
    requires s.Sys? && i < |s.ws| && WorkerStep(s, i, e).Sys? && !s.ws[i].pc.Run? && !s.ws[i].pc.Check?
    ensures WorkerStep(s, i, e).services == s.services
  {
    hide WorkerStep;
    match s.ws[i].pc {
      case Acquire(_) => AcquireIs(s, i, e);
      case AcquireFor(_) => AcquireForIs(s, i, e);
      case Complete2(_) => Complete2Is(s, i, e);
      case Complete3(_) => Complete3Is(s, i, e);
      case QuitAll(_) => QuitsEffect(s, i, e);
      case WakeAll(_) => QuitsEffect(s, i, e);
      case _ => PlainServices(s, i, e);
    }
  }

  lemma PlainServices(s: Sys, i: nat, e: Env)
    requires s.Sys? && i < |s.ws| && !Quits(s.ws[i].pc) && !s.ws[i].pc.Run? && !s.ws[i].pc.Check?
    requires !s.ws[i].pc.Acquire? && !s.ws[i].pc.AcquireFor? && !s.ws[i].pc.Complete2? && !s.ws[i].pc.Complete3?
    ensures WorkerStep(s, i, e).Sys? && WorkerStep(s, i, e).services == s.services
  {
    hide OwnStep, Rebind;
  }


  // -------------------------------------------------------- scheduler's steps

  // What the scheduler may do to a worker: its slots, a wake-up, or, to the
  // owner, the way out of the round.
  predicate Handled(w: Worker, v: Worker) {
    || v == w.(ready := v.ready, done := v.done, queue := v.queue)
    || v == Wake(w)
    || (v == w.(pc := v.pc) && OwnerPc(w.pc) &&
        ((v.pc.Complete3? && w.pc == Redo(v.pc.id)) || v.pc.Top? || v.pc.CheckDone?))
  }

  lemma SchedulerHandles(s: Sys, e: Env, k: nat)
    requires s.Sys? && Control(s) && s.phase != Off && k < |s.ws| && 0 <= s.owner < |s.ws| && SchedulerStep(s, e).Sys?
    ensures |SchedulerStep(s, e).ws| == |s.ws| && Handled(s.ws[k], SchedulerStep(s, e).ws[k])
  {
    hide Control, SchedulerStep, Handled;
    if s.phase.Prepare? {
      PrepareHandles(s, e, k);
    } else if s.phase.Route? || s.phase.Settle? {
      RouteHandles(s, e, k);
    } else if TailPhase(s.phase) || s.phase.Trigger? {
      TailHandles(s, e, k);
    } else if s.phase.CountWake? || s.phase.PrepareWake? || s.phase.AssignWake? {
      WakeHandles(s, e, k);
    } else if s.phase.Assign? || s.phase.Count? {
      PlaceHandles(s, e, k);
    } else {
      CollectHandles(s, e, k);
    }
  }

  lemma HandledSelf(w: Worker)
    ensures Handled(w, w) && Handled(w, Wake(w))
    ensures w.queue != [] ==> Handled(w, TakeBound(w))
  {
  }

  lemma PrepareHandles(s: Sys, e: Env, k: nat)
    requires s.Sys? && s.phase.Prepare? && k < |s.ws| && 0 <= s.owner < |s.ws| && SchedulerStep(s, e).Sys?
    ensures |SchedulerStep(s, e).ws| == |s.ws| && Handled(s.ws[k], SchedulerStep(s, e).ws[k])
  {
    hide Handled, TakeBound;
    HandledSelf(s.ws[k]);
    if s.phase.left > 0 && s.schedule != [] {
      var job := s.schedule[0];
      var b := BindingOf(s.services, job);
      if 0 <= b < |s.ws| && |s.ws[b].queue| < BINDING_SERVICE_QUEUE { PreparedAt(s.ws[b], job); }
    }
  }

  lemma PreparedAt(w: Worker, job: nat)
    ensures var v := w.(queue := w.queue + [job]); Handled(w, v) && Handled(w, TakeBound(v))
  {
  }

  lemma RouteHandles(s: Sys, e: Env, k: nat)
    requires s.Sys? && (s.phase.Route? || s.phase.Settle?) && k < |s.ws| && 0 <= s.owner < |s.ws| &&
      SchedulerStep(s, e).Sys?
    ensures |SchedulerStep(s, e).ws| == |s.ws| && Handled(s.ws[k], SchedulerStep(s, e).ws[k])
  {
    assert SchedulerStep(s, e).ws == s.ws;
  }

  lemma WakeHandles(s: Sys, e: Env, k: nat)
    requires s.Sys? && (s.phase.CountWake? || s.phase.PrepareWake? || s.phase.AssignWake?)
    requires k < |s.ws| && 0 <= s.owner < |s.ws| && SchedulerStep(s, e).Sys?
    ensures |SchedulerStep(s, e).ws| == |s.ws| && Handled(s.ws[k], SchedulerStep(s, e).ws[k])
  {
  }

  lemma PlaceHandles(s: Sys, e: Env, k: nat)
    requires s.Sys? && (s.phase.Assign? || s.phase.Count?) && k < |s.ws| && 0 <= s.owner < |s.ws| &&
      SchedulerStep(s, e).Sys?
    ensures |SchedulerStep(s, e).ws| == |s.ws| && Handled(s.ws[k], SchedulerStep(s, e).ws[k])
  {
    hide Handled, TakeBound;
    HandledSelf(s.ws[k]);
    if s.phase.k < |s.ws| {
      HandledSelf(s.ws[s.phase.k]);
      if s.phase.Assign? && s.phase.prep != [] { GivenAt(s.ws[s.phase.k], s.phase.prep[0]); }
    }
  }

  lemma GivenAt(w: Worker, job: nat)
    ensures Handled(w, w.(ready := job))
  {
  }

  lemma CollectHandles(s: Sys, e: Env, k: nat)
    requires s.Sys? && (s.phase.Collect? || s.phase.Pending? || s.phase.PendingCas?)
    requires k < |s.ws| && 0 <= s.owner < |s.ws| && SchedulerStep(s, e).Sys?
    ensures |SchedulerStep(s, e).ws| == |s.ws| && Handled(s.ws[k], SchedulerStep(s, e).ws[k])
  {
  }

  lemma EndHandles(s: Sys, e: Env, k: nat)
    requires s.Sys? && Control(s) && (s.phase.Trigger? || s.phase.Release? || s.phase.HasJob?)
    requires k < |s.ws| && 0 <= s.owner < |s.ws|
    ensures SchedulerStep(s, e).Sys?
    ensures |SchedulerStep(s, e).ws| == |s.ws| && Handled(s.ws[k], SchedulerStep(s, e).ws[k])
  {
    hide Control;
    Facts2(s);
  }

  lemma TailHandles(s: Sys, e: Env, k: nat)
    requires s.Sys? && Control(s) && (TailPhase(s.phase) || s.phase.Trigger?)
    requires k < |s.ws| && 0 <= s.owner < |s.ws| && SchedulerStep(s, e).Sys?
    ensures |SchedulerStep(s, e).ws| == |s.ws| && Handled(s.ws[k], SchedulerStep(s, e).ws[k])
  {
    hide Control, Wake, BindingOf;
    if s.phase.Trigger? || s.phase.Release? || s.phase.HasJob? { EndHandles(s, e, k); }
  }
}
