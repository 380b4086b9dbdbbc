// blocked_service: when it is set, and that nobody is left asleep over it.
module SchedBlocked {
  import opened SchedModel
  import opened SchedOwner
  import opened SchedDispatch
  import opened SchedEffect
  import opened SchedBudget
  import opened SchedBound
  import opened SchedWake
  import opened SchedStrand
  import opened SchedStray
  import opened SchedTheorem

  // Step 4 or 5 gives a worker a job: a service bound to it.
  ghost predicate Kicks(s: Sys, i: nat, e: Env) {
    && s.Sys? && i < |s.ws| && s.owner == i && (s.phase.Count? || s.phase.Prepare?)
    && var t := Step(s, i, e);
    t.Sys? && |t.ws| == |s.ws| && exists k :: 0 <= k < |s.ws| && s.ws[k].ready == 0 && t.ws[k].ready != 0
  }

  // Step 7 finds that no such service still waits for its worker.
  predicate Clears(s: Sys, i: nat, e: Env) {
    s.Sys? && i < |s.ws| && s.owner == i && s.phase.Trigger? && !e.flag
  }

  // ------------------------------------------------------------ when it is set

  lemma WorkerBlocked(s: Sys, i: nat, e: Env)
    requires s.Sys? && i < |s.ws| && WorkerStep(s, i, e).Sys?
    ensures WorkerStep(s, i, e).blocked == s.blocked
  {
    hide WorkerStep, NextWorker;
    if Quits(s.ws[i].pc) { QuitsEffect(s, i, e); } else { Effect(s, i, e); }
  }

  lemma CountBlocked(s: Sys, e: Env)
    requires s.Sys? && Control(s) && Owned(s) && s.phase.Count? && 0 <= s.owner < |s.ws| && SchedulerStep(s, e).Sys?
    ensures var t := SchedulerStep(s, e);
      |t.ws| == |s.ws| &&
      (t.blocked <==> s.blocked || exists k :: 0 <= k < |s.ws| && s.ws[k].ready == 0 && t.ws[k].ready != 0)
  {
    hide Control, Owned;
    var k, t := s.phase.k, SchedulerStep(s, e);
    if k < |s.ws| && s.ws[k].ready == 0 && s.ws[k].queue != [] {
      NotNull(s, k);
      assert t.ws[k].ready != 0;
    }
  }

  lemma PrepareBlocked(s: Sys, e: Env)
    requires s.Sys? && Control(s) && Owned(s) && s.phase.Prepare? && 0 <= s.owner < |s.ws| && SchedulerStep(s, e).Sys?
    ensures var t := SchedulerStep(s, e);
      |t.ws| == |s.ws| &&
      (t.blocked <==> s.blocked || exists k :: 0 <= k < |s.ws| && s.ws[k].ready == 0 && t.ws[k].ready != 0)
  {
    hide Control, Owned;
    if s.phase.left > 0 && s.schedule != [] {
      var job := s.schedule[0];
      var b := BindingOf(s.services, job);
      QueuedIsOwned(s, job);
      Facts2(s);
      if 0 <= b < |s.ws| && |s.ws[b].queue| < BINDING_SERVICE_QUEUE {
        var w := s.ws[b].(queue := s.ws[b].queue + [job]);
        if s.ws[b].queue != [] { NotNull(s, b); }
        var v := if w.ready != 0 then w else TakeBound(w);
        assert v.ready != 0;
        assert SchedulerStep(s, e).ws == s.ws[b := v];
      }
    }
  }

  lemma EndBlocked(s: Sys, e: Env)
    requires s.Sys? && (s.phase.Trigger? || TailPhase(s.phase)) && 0 <= s.owner < |s.ws|
    ensures SchedulerStep(s, e).Sys? && (SchedulerStep(s, e).blocked <==> s.blocked && !(s.phase.Trigger? && !e.flag))
  {
    hide BindingOf;
  }

  lemma RouteBlocked(s: Sys, e: Env)
    requires s.Sys? && (s.phase.Route? || s.phase.Settle?) && 0 <= s.owner < |s.ws| && SchedulerStep(s, e).Sys?
    ensures SchedulerStep(s, e).blocked == s.blocked
  {
    hide SetStatus, SetLoss;
  }

  lemma OtherBlocked(s: Sys, e: Env)
    requires s.Sys? && !s.phase.Count? && !s.phase.Prepare? && 0 <= s.owner < |s.ws| && SchedulerStep(s, e).Sys?
    ensures SchedulerStep(s, e).blocked <==> s.blocked && !(s.phase.Trigger? && !e.flag)
  {
    hide BindingOf, TakeBound, CheckRoute, BackRoute;
    if s.phase.Trigger? || TailPhase(s.phase) {
      EndBlocked(s, e);
    } else if s.phase.Route? || s.phase.Settle? {
      RouteBlocked(s, e);
    }
  }

  // The flag is set when a worker is given a service bound to it in step 4 or
  // 5, cleared in step 7 when none of these still waits, and touched in no
  // other step.
  lemma BlockedIff(s: Sys, i: nat, e: Env)
    requires s.Sys? && Good(s) && Step(s, i, e).Sys?
    ensures Step(s, i, e).blocked <==> Kicks(s, i, e) || (s.blocked && !Clears(s, i, e))
  {
    hide Control, Owned, Budget, Bound, Awake, Strand, Traced, WorkerStep, SchedulerStep;
    if i < |s.ws| {
      if s.phase != Off && s.owner == i {
        if s.phase.Count? {
          CountBlocked(s, e);
        } else if s.phase.Prepare? {
          PrepareBlocked(s, e);
        } else {
          OtherBlocked(s, e);
        }
      } else {
        WorkerBlocked(s, i, e);
      }
    }
  }

  // ------------------------------------------------------ nobody sleeps on it

  predicate PastDecision(pc: Pc) {
    pc.Sleep? || pc.Lock? || pc.Locked? || pc.Waiting?
  }

  ghost predicate SomebodyUp(ws: seq<Worker>) {
    exists k :: 0 <= k < |ws| && !PastDecision(ws[k].pc)
  }

  ghost predicate Watched(s: Sys)
    requires s.Sys?
  {
    s.blocked ==> SomebodyUp(s.ws)
  }

  lemma MoverUp(w: Worker, blocked: bool)
    requires blocked && !PastDecision(w.pc)
    ensures !PastDecision(OwnStep(w, blocked).pc)
  {
  }

  lemma NextUp(s: Sys, i: nat, e: Env)
    requires s.Sys? && i < |s.ws| && s.blocked && !PastDecision(s.ws[i].pc)
    ensures !PastDecision(NextWorker(s, i, e).pc)
  {
    hide OwnStep, BindingOf, StatusOf;
    MoverUp(s.ws[i], s.blocked);
  }

  lemma WorkerWatched(s: Sys, i: nat, e: Env)
    requires s.Sys? && Watched(s) && i < |s.ws| && WorkerStep(s, i, e).Sys?
    ensures Watched(WorkerStep(s, i, e))
  {
    hide WorkerStep, NextWorker, PastDecision;
    var t := WorkerStep(s, i, e);
    WorkerBlocked(s, i, e);
    if s.blocked {
      var k :| 0 <= k < |s.ws| && !PastDecision(s.ws[k].pc);
      if Quits(s.ws[i].pc) {
        QuitsEffect(s, i, e);
        QuitterUp(t.ws[i].pc);
        assert !PastDecision(t.ws[i].pc);
      } else {
        Effect(s, i, e);
        if k == i { NextUp(s, i, e); }
        assert !PastDecision(t.ws[k].pc);
      }
    }
  }

  lemma QuitterUp(pc: Pc)
    ensures Quits(pc) || pc.Exited? || OwnerPc(pc) || pc.Complete3? || pc.Top? || pc.CheckDone? ==> !PastDecision(pc)
  {
  }

  lemma SchedulerWatched(s: Sys, e: Env)
    requires s.Sys? && Control(s) && s.phase != Off && 0 <= s.owner < |s.ws| && SchedulerStep(s, e).Sys?
    ensures SomebodyUp(SchedulerStep(s, e).ws)
  {
    hide SchedulerStep;
    var i, t := s.owner, SchedulerStep(s, e);
    SchedulerHandles(s, e, i);
    QuitterUp(t.ws[i].pc);
    assert !PastDecision(t.ws[i].pc);
  }

  lemma StepWatched(s: Sys, i: nat, e: Env)
    requires s.Sys? && Good(s) && Watched(s) && Step(s, i, e).Sys?
    ensures Watched(Step(s, i, e))
  {
    hide Control, Owned, Budget, Bound, Awake, Strand, Traced, WorkerStep, SchedulerStep, SomebodyUp;
    if i < |s.ws| {
      if s.phase != Off && s.owner == i { SchedulerWatched(s, e); } else { WorkerWatched(s, i, e); }
    }
  }

  lemma {:induction false} RunWatched(s: Sys, actions: seq<Action>)
    requires s.Sys? && Good(s) && Watched(s) && AllAllowed(s, actions) && RunAll(s, actions).Sys?
    ensures Watched(RunAll(s, actions))
    decreases |actions|
  {
    hide Good, Watched, Step, Allowed;
    if actions != [] {
      var a := actions[0];
      StepKeeps(s, a.worker, a.env);
      var t := Step(s, a.worker, a.env);
      if !t.Sys? { FailedRun(t, actions[1..]); }
      StepWatched(s, a.worker, a.env);
      RunWatched(t, actions[1..]);
    }
  }

  // While a bound service may be waiting for a worker that is busy, somebody
  // stays up to look after it: everybody asleep means that none is.
  lemma NobodySleepsOnIt(s0: Sys, actions: seq<Action>, s: Sys)
    requires Reaches(s0, actions, s) && s.Sys? && AllBlocked(s)
    ensures !s.blocked
  {
    hide Good, Start, AllAllowed, RunAll;
    StartGood(s0);
    StartWatched(s0);
    RunWatched(s0, actions);
  }

  lemma StartWatched(s: Sys)
    requires Start(s)
    ensures s.Sys? && Watched(s)
  {
  }
}
