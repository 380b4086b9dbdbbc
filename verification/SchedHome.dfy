// The binding of a service: what changes it, where the service runs next, and
// what its worker notes about it.
module SchedHome {
  import opened SchedModel
  import opened SchedOwner
  import opened SchedDispatch
  import opened SchedEffect
  import opened SchedBudget
  import opened SchedBound
  import opened SchedWake
  import opened SchedStrand
  import opened SchedStray
  import opened SchedTheorem

  // In this step service x binds itself to worker b, or root sets x up there.
  predicate Tells(s: Sys, i: nat, e: Env, x: nat, b: int) {
    && s.Sys? && i < |s.ws| && (s.phase == Off || s.owner != i) && s.ws[i].pc.Run?
    && (e.event == Init(x, b) || (e.event == Bind(b) && s.ws[i].pc.id == x))
  }

  // ------------------------------------------------------- what changes it

  lemma WorkerTells(s: Sys, i: nat, e: Env, x: nat)
    requires s.Sys? && Control(s) && Owned(s) && Allowed(s, i, e) && i < |s.ws| && (s.phase == Off || s.owner != i)
    requires WorkerStep(s, i, e).Sys? && x in s.services && x in WorkerStep(s, i, e).services
    ensures var n := BindingOf(WorkerStep(s, i, e).services, x);
      && (n == BindingOf(s.services, x) || Tells(s, i, e, x, n))
      && forall b: int :: Tells(s, i, e, x, b) ==> n == b
  {
    hide Owned, Control;
    if s.ws[i].pc.Run? {
      RunTells(s, i, e, x);
    } else if s.ws[i].pc.Check? {
      CheckOwned(s, i, e);
    } else {
      ServicesKept(s, i, e);
    }
  }

  lemma RunTells(s: Sys, i: nat, e: Env, x: nat)
    requires s.Sys? && i < |s.ws| && s.ws[i].pc.Run?
    requires x in s.services && x in WorkerStep(s, i, e).services
    ensures var n := BindingOf(WorkerStep(s, i, e).services, x);
      n == if e.event.Bind? && s.ws[i].pc.id == x then e.event.worker
           else if e.event.Init? && e.event.id == x then e.event.worker
           else BindingOf(s.services, x)
  {
  }

  lemma SchedulerTells(s: Sys, e: Env, x: nat)
    requires s.Sys? && Control(s) && Owned(s) && s.phase != Off && AllowedRoute(s, e) && 0 <= s.owner < |s.ws|
    requires SchedulerStep(s, e).Sys? && x in s.services && x in SchedulerStep(s, e).services
    ensures BindingOf(SchedulerStep(s, e).services, x) == BindingOf(s.services, x)
  {
    hide Owned, Control;
    if s.phase.Route? {
      if s.phase.jobs != [] { RoutedHead(s); }
    } else if s.phase.Settle? {
      Facts2(s);
    } else {
      OnlyRouting(s, e);
    }
  }

  // The binding of a service changes when it binds itself or is set up, to the
  // worker named there, and in no other step.
  lemma BindingIsAsTold(s: Sys, i: nat, e: Env, x: nat)
    requires s.Sys? && Good(s) && Allowed(s, i, e) && Step(s, i, e).Sys?
    requires x in s.services && x in Step(s, i, e).services
    ensures var n := BindingOf(Step(s, i, e).services, x);
      && (n == BindingOf(s.services, x) || Tells(s, i, e, x, n))
      && forall b: int :: Tells(s, i, e, x, b) ==> n == b
  {
    hide Control, Owned, Budget, Bound, Awake, Strand, Traced, WorkerStep, SchedulerStep, Allowed;
    if i < |s.ws| {
      AllowedCases(s, i, e);
      if s.phase != Off && s.owner == i { SchedulerTells(s, e, x); } else { WorkerTells(s, i, e, x); }
    }
  }

  // ------------------------------------------------------ where it runs next

  // In the step worker j begins to run x.
  predicate Begins(s: Sys, t: Sys, x: nat, j: nat) {
    s.Sys? && t.Sys? && j < |s.ws| == |t.ws| && s.ws[j].pc != SchedModel.Run(x) && t.ws[j].pc == SchedModel.Run(x)
  }

  lemma OnlyCheckBegins(s: Sys, i: nat, e: Env, x: nat, j: nat)
    requires s.Sys? && Good(s) && Allowed(s, i, e) && Begins(s, Step(s, i, e), x, j)
    ensures j == i && s.ws[i].pc == Check(x)
  {
    hide Control, Owned, Budget, Bound, Awake, Strand, Traced, WorkerStep, SchedulerStep, NextWorker, Handled;
    if s.phase != Off && s.owner == i {
      SchedulerHandles(s, e, j);
      HandledRuns(s.ws[j], SchedulerStep(s, e).ws[j], x);
    } else if Quits(s.ws[i].pc) {
      QuitsEffect(s, i, e);
    } else {
      Effect(s, i, e);
      NextRuns(s, i, e, x);
    }
  }

  lemma HandledRuns(w: Worker, v: Worker, x: nat)
    requires Handled(w, v)
    ensures v.pc == SchedModel.Run(x) ==> w.pc == SchedModel.Run(x)
  {
  }

  lemma NextRuns(s: Sys, i: nat, e: Env, x: nat)
    requires s.Sys? && i < |s.ws| && NextWorker(s, i, e).pc == SchedModel.Run(x) && s.ws[i].pc != SchedModel.Run(x)
    ensures s.ws[i].pc == Check(x)
  {
    hide OwnStep, StatusOf, BindingOf;
    OwnStepPcs(s.ws[i], s.blocked);
  }

  // Over the run, worker i is the first to begin running x.
  ghost predicate FirstToBegin(s: Sys, more: seq<Action>, x: nat, i: nat)
    decreases |more|
  {
    more != [] &&
    var t := Step(s, more[0].worker, more[0].env);
    if exists j: nat :: Begins(s, t, x, j) then Begins(s, t, x, i) else FirstToBegin(t, more[1..], x, i)
  }

  // x is there throughout, and nobody binds it in the run.
  ghost predicate LeftAlone(s: Sys, more: seq<Action>, x: nat)
    decreases |more|
  {
    && s.Sys? && x in s.services
    && (more != [] ==>
          && (forall b: int :: !Tells(s, more[0].worker, more[0].env, x, b))
          && LeftAlone(Step(s, more[0].worker, more[0].env), more[1..], x))
  }

  lemma {:induction false} BeginsAtHome(s: Sys, more: seq<Action>, x: nat, i: nat)
    requires s.Sys? && Good(s) && AllAllowed(s, more) && LeftAlone(s, more, x) && FirstToBegin(s, more, x, i)
    requires BindingOf(s.services, x) >= 0
    ensures i == BindingOf(s.services, x)
    decreases |more|
  {
    hide Good, Step, Allowed, Begins, Tells;
    var a := more[0];
    var t := Step(s, a.worker, a.env);
    if exists j: nat :: Begins(s, t, x, j) {
      BeginsHere(s, a.worker, a.env, x, i);
    } else {
      StepKeeps(s, a.worker, a.env);
      BindingIsAsTold(s, a.worker, a.env, x);
      BeginsAtHome(t, more[1..], x, i);
    }
  }

  lemma BeginsHere(s: Sys, i: nat, e: Env, x: nat, j: nat)
    requires s.Sys? && Good(s) && Allowed(s, i, e) && Begins(s, Step(s, i, e), x, j) && BindingOf(s.services, x) >= 0
    ensures j == BindingOf(s.services, x)
  {
    hide Step, Allowed, Control, Owned, Budget, Awake, Strand, Traced;
    OnlyCheckBegins(s, i, e, x, j);
    assert WorkerOk(s.services, s.ws[i], i);
  }

  // A service that binds itself to worker b, or is set up there, is run next by
  // b and by nobody else, however long that takes.
  lemma RunsWhereTold(s0: Sys, actions: seq<Action>, s: Sys, a: Action, more: seq<Action>, x: nat, b: nat, i: nat)
    requires Reaches(s0, actions, s) && s.Sys? && AllAllowed(s, [a] + more) && Tells(s, a.worker, a.env, x, b)
    requires x in s.services && var t := Step(s, a.worker, a.env); LeftAlone(t, more, x) && FirstToBegin(t, more, x, i)
    ensures i == b
  {
    hide Good, Reaches, Step, Allowed, LeftAlone, FirstToBegin, Tells;
    ReachedIsGood(s0, actions, s);
    assert ([a] + more)[0] == a && ([a] + more)[1..] == more;
    var t := Step(s, a.worker, a.env);
    StepKeeps(s, a.worker, a.env);
    assert t.Sys? && x in t.services by { IsThere(t, more, x); }
    BindingIsAsTold(s, a.worker, a.env, x);
    BeginsAtHome(t, more, x, i);
  }

  lemma IsThere(s: Sys, more: seq<Action>, x: nat)
    requires LeftAlone(s, more, x)
    ensures s.Sys? && x in s.services
  {
  }

  // ------------------------------------------------- what the worker notes

  // After a job the worker's own note of what is bound to it agrees with the
  // service that ran: bound here, or dead and forgotten.
  predicate Noted(m: Services, w: Worker, k: nat) {
    Held(w.pc).1 == Finished ==>
      var x := Held(w.pc).0;
      if w.pc.After? then w.pc.dead <==> x in m && m[x].signal
      else (x in m && m[x].status == Done && m[x].binding == k ==> w.binding == x) && (x in m && m[x].signal ==> w.binding != x)
  }

  ghost predicate AllNoted(s: Sys)
    requires s.Sys?
  {
    forall k | 0 <= k < |s.ws| :: Noted(s.services, s.ws[k], k)
  }

  ghost predicate Alike(m: Services, n: Services, x: nat) {
    x in m && x in n && n[x] == m[x]
  }

  lemma AlikeNoted(m: Services, n: Services, w: Worker, k: nat)
    requires Noted(m, w, k) && (Held(w.pc).1 == Finished ==> Alike(m, n, Held(w.pc).0))
    ensures Noted(n, w, k)
  {
    hide Held;
  }

  // Nobody but the scheduler touches a service that has run.
  lemma WorkerLeavesFinished(s: Sys, i: nat, e: Env, x: nat)
    requires s.Sys? && Control(s) && Owned(s) && Allowed(s, i, e) && i < |s.ws| && (s.phase == Off || s.owner != i)
    requires WorkerStep(s, i, e).Sys? && Expected(s.services, x, Finished) == 1
    ensures Alike(s.services, WorkerStep(s, i, e).services, x)
  {
    hide Owned, Control;
    if s.ws[i].pc.Run? {
      HeldIsOwned(s, i);
      Facts(s, i);
    } else if s.ws[i].pc.Check? {
      CheckOwned(s, i, e);
      HeldIsOwned(s, i);
      Facts(s, i);
    } else {
      ServicesKept(s, i, e);
    }
  }

  lemma ReportLeavesFinished(s: Sys, e: Env, x: nat)
    requires s.Sys? && s.phase.Route? && s.phase.jobs != [] && 0 <= s.owner < |s.ws| && SchedulerStep(s, e).Sys?
    requires StatusOf(s.services, s.phase.jobs[0]) == Dead && s.phase.jobs[0] in s.services
    requires x in s.services && Expected(s.services, x, Finished) == 1 && x != s.phase.jobs[0]
    ensures Alike(s.services, SchedulerStep(s, e).services, x)
  {
    hide CheckRoute, Expected, BackRoute;
    var id := s.phase.jobs[0];
    var m := s.services[id := s.services[id].(signal := false)];
    ExpectedKept(s.services, m, x);
    CheckedAlike(s.(services := m), ROOT, Route(s.phase.jobs[1..]), x);
    BackedAlike(s.(services := SetLoss(m, id, Requeued)), id, Route(s.phase.jobs[1..]));
  }

  lemma ExpectedKept(m: Services, n: Services, x: nat)
    requires Alike(m, n, x)
    ensures forall k: Kind :: Expected(n, x, k) == Expected(m, x, k)
  {
  }

  lemma CheckedAlike(s: Sys, to: nat, p: Phase, x: nat)
    requires s.Sys? && Expected(s.services, x, Finished) == 1
    ensures CheckRoute(s, to, p).Sys? ==> Alike(s.services, CheckRoute(s, to, p).services, x)
  {
  }

  lemma BackedAlike(s: Sys, id: nat, p: Phase)
    requires s.Sys?
    ensures BackRoute(s, id, p).Sys? ==> BackRoute(s, id, p).services == s.services
  {
  }

  lemma MessageLeavesFinished(s: Sys, e: Env, x: nat)
    requires s.Sys? && s.phase.Route? && s.phase.jobs != [] && 0 <= s.owner < |s.ws| && SchedulerStep(s, e).Sys?
    requires AllowedRoute(s, e) && StatusOf(s.services, s.phase.jobs[0]) != Dead && Expected(s.services, x, Finished) == 1
    requires x in s.services && GoodService(s.services[x], |s.ws|)
    ensures Alike(s.services, SchedulerStep(s, e).services, x)
  {
    hide CheckRoute;
    if e.message.To? { CheckedAlike(s, e.message.to, Settle(s.phase.jobs), x); }
  }

  lemma SchedulerLeavesFinished(s: Sys, e: Env, x: nat)
    requires s.Sys? && Control(s) && Owned(s) && s.phase != Off && AllowedRoute(s, e) && 0 <= s.owner < |s.ws|
    requires SchedulerStep(s, e).Sys? && Expected(s.services, x, Finished) == 1
    requires Local(s.phase).1 == Finished ==> x !in Local(s.phase).0
    ensures Alike(s.services, SchedulerStep(s, e).services, x)
  {
    hide Owned, Control, CheckRoute, BackRoute, AllowedRoute;
    Facts2(s);
    if s.phase.Route? {
      if s.phase.jobs != [] {
        RoutedHead(s);
        if StatusOf(s.services, s.phase.jobs[0]) == Dead { ReportLeavesFinished(s, e, x); } else { MessageLeavesFinished(s, e, x); }
      }
    } else if s.phase.Settle? {
      BackedAlike(s.(services := SetStatus(s.services, s.phase.jobs[0], Schedule)), s.phase.jobs[0], Route(s.phase.jobs[1..]));
    } else {
      OnlyRouting(s, e);
    }
  }

  // What a worker has in hand is not in the scheduler's.
  lemma HeldAlone(s: Sys, k: nat)
    requires s.Sys? && Control(s) && Owned(s) && k < |s.ws| && Held(s.ws[k].pc).1 == Finished
    ensures var x := Held(s.ws[k].pc).0;
      Expected(s.services, x, Finished) == 1 && x in s.services && (Local(s.phase).1 == Finished ==> x !in Local(s.phase).0)
  {
    hide Control;
    Facts(s, k);
    FinishedPc(s.ws[k].pc);
    HeldIsOwned(s, k);
    var x := Held(s.ws[k].pc).0;
    Holds(s.ws, k, x, Finished);
    assert Total(s, x, Finished) == Expected(s.services, x, Finished);
  }

  lemma FinishedPc(pc: Pc)
    requires GoodPc(pc) && Held(pc).1 == Finished
    ensures Held(pc).0 != 0
  {
  }

  // The worker that steps.
  lemma MoverNoted(s: Sys, i: nat, e: Env)
    requires s.Sys? && Control(s) && Owned(s) && Allowed(s, i, e) && i < |s.ws| && (s.phase == Off || s.owner != i)
    requires !Quits(s.ws[i].pc) && WorkerStep(s, i, e).Sys? && Noted(s.services, s.ws[i], i)
    ensures Noted(WorkerStep(s, i, e).services, NextWorker(s, i, e), i)
  {
    hide Owned, Control, WorkerStep;
    Facts(s, i);
    var pc := s.ws[i].pc;
    if pc.Run? || pc.Check? {
      EnderNoted(s, i, e);
    } else {
      ServicesKept(s, i, e);
      if pc.After? {
        HeldAlone(s, i);
        RebindNoted(s.services, s.ws[i], i);
      } else {
        SameNote(s, i, e);
      }
    }
  }

  lemma EnderNoted(s: Sys, i: nat, e: Env)
    requires s.Sys? && Control(s) && Owned(s) && Allowed(s, i, e) && i < |s.ws| && (s.phase == Off || s.owner != i)
    requires (s.ws[i].pc.Run? || s.ws[i].pc.Check?) && WorkerStep(s, i, e).Sys?
    ensures Noted(WorkerStep(s, i, e).services, NextWorker(s, i, e), i)
  {
    hide Owned, Control;
    Facts(s, i);
    HeldIsOwned(s, i);
    assert GoodService(s.services[s.ws[i].pc.id], |s.ws|);
  }

  lemma RebindNoted(m: Services, w: Worker, k: nat)
    requires w.pc.After? && Noted(m, w, k) && w.pc.id != 0 && w.pc.id in m && (m[w.pc.id].signal ==> m[w.pc.id].status == Dead)
    ensures Noted(m, Rebind(w, w.pc.id, w.pc.dead, BindingOf(m, w.pc.id) == k), k)
  {
  }

  lemma SameNote(s: Sys, i: nat, e: Env)
    requires s.Sys? && i < |s.ws| && Noted(s.services, s.ws[i], i)
    requires !s.ws[i].pc.After? && !s.ws[i].pc.Run? && !s.ws[i].pc.Check? && !Quits(s.ws[i].pc)
    ensures Noted(s.services, NextWorker(s, i, e), i)
  {
    hide OwnStep, BindingOf;
    if OwnPc(s.ws[i].pc) {
      OwnStepSlots(s.ws[i], s.blocked);
      OwnStepTokens(s.ws[i], s.blocked);
      OwnStepPcs(s.ws[i], s.blocked);
    }
  }

  lemma HandledNoted(m: Services, w: Worker, v: Worker, k: nat)
    requires Handled(w, v) && Noted(m, w, k)
    ensures Noted(m, v, k)
  {
  }

  lemma StepNoted(s: Sys, i: nat, e: Env)
    requires s.Sys? && Good(s) && AllNoted(s) && Allowed(s, i, e) && Step(s, i, e).Sys?
    ensures AllNoted(Step(s, i, e))
  {
    hide Control, Owned, Budget, Bound, Awake, Strand, Traced, WorkerStep, SchedulerStep, Allowed, Noted, Held, Handled, NextWorker, Alike;
    if i < |s.ws| {
      AllowedCases(s, i, e);
      var t := Step(s, i, e);
      if s.phase != Off && s.owner == i {
        SchedulerHandles(s, e, 0);
        forall k | 0 <= k < |t.ws| ensures Noted(t.services, t.ws[k], k) {
          if Held(s.ws[k].pc).1 == Finished { HeldAlone(s, k); SchedulerLeavesFinished(s, e, Held(s.ws[k].pc).0); }
          AlikeNoted(s.services, t.services, s.ws[k], k);
          SchedulerHandles(s, e, k);
          HandledNoted(t.services, s.ws[k], t.ws[k], k);
        }
      } else {
        if Quits(s.ws[i].pc) { QuitsEffect(s, i, e); } else { Effect(s, i, e); MoverNoted(s, i, e); }
        forall k | 0 <= k < |t.ws| && k != i ensures Noted(t.services, t.ws[k], k) {
          if Held(s.ws[k].pc).1 == Finished { HeldAlone(s, k); WorkerLeavesFinished(s, i, e, Held(s.ws[k].pc).0); }
          AlikeNoted(s.services, t.services, s.ws[k], k);
          if Quits(s.ws[i].pc) { NudgedNoted(t.services, s.ws[k], t.ws[k], k); }
        }
        if Quits(s.ws[i].pc) { QuitterNoted(t.services, t.ws[i], i); }
      }
    }
  }

  lemma NudgedNoted(m: Services, w: Worker, v: Worker, k: nat)
    requires Nudged(w, v) && v.pc == w.pc && Noted(m, w, k)
    ensures Noted(m, v, k)
  {
  }

  lemma QuitterNoted(m: Services, w: Worker, k: nat)
    requires Quits(w.pc) || w.pc.Exited?
    ensures Noted(m, w, k)
  {
  }

  lemma {:induction false} RunNoted(s: Sys, actions: seq<Action>)
    requires s.Sys? && Good(s) && AllNoted(s) && AllAllowed(s, actions) && RunAll(s, actions).Sys?
    ensures AllNoted(RunAll(s, actions))
    decreases |actions|
  {
    hide Good, AllNoted, Step, Allowed;
    if actions != [] {
      var a := actions[0];
      StepKeeps(s, a.worker, a.env);
      var t := Step(s, a.worker, a.env);
      if !t.Sys? { FailedRun(t, actions[1..]); }
      StepNoted(s, a.worker, a.env);
      RunNoted(t, actions[1..]);
    }
  }

  lemma StartNoted(s: Sys)
    requires Start(s)
    ensures s.Sys? && AllNoted(s)
  {
    assert forall k | 0 <= k < |s.ws| :: s.ws[k] in s.ws;
  }

  // From the end of a job until it is published, a worker whose service is
  // bound to it has it down as its own, and one whose service has died does
  // not have it down any more.
  lemma WorkerNotesBinding(s0: Sys, actions: seq<Action>, s: Sys, k: nat, x: nat)
    requires Reaches(s0, actions, s) && s.Sys? && k < |s.ws| && Held(s.ws[k].pc) == (x, Finished) && !s.ws[k].pc.After?
    ensures x in s.services
    ensures s.services[x].status == Done && s.services[x].binding == k ==> s.ws[k].binding == x
    ensures s.services[x].signal ==> s.ws[k].binding != x
  {
    hide Good, AllAllowed, RunAll;
    StartGood(s0);
    StartNoted(s0);
    RunKeeps(s0, actions);
    RunNoted(s0, actions);
    assert Noted(s.services, s.ws[k], k);
    HeldThere(s, k);
  }

  lemma HeldThere(s: Sys, k: nat)
    requires s.Sys? && Good(s) && k < |s.ws| && Held(s.ws[k].pc).1 == Finished
    ensures Held(s.ws[k].pc).0 in s.services
  {
    hide Control, Owned;
    HeldAlone(s, k);
  }
}
