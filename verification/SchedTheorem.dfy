// What holds in every state of every run of the scheduler.
module SchedTheorem {
  import opened SchedModel
  import opened SchedOwner
  import opened SchedDispatch
  import opened SchedEffect
  import opened SchedBudget
  import opened SchedUnbound
  import opened SchedBound
  import opened SchedWake
  import opened SchedStrand
  import opened SchedStray

  ghost predicate Good(s: Sys)
    requires s.Sys?
  {
    Control(s) && Owned(s) && Budget(s) && Bound(s) && Awake(s) && Strand(s) && Traced(s)
  }

  // ------------------------------------------------------------------- start

  lemma {:induction false} NothingInWorkers(ws: seq<Worker>, x: nat, k: Kind)
    requires forall w | w in ws :: w == Worker(Top, 0, 0, 0, [], false, false, false, false)
    ensures InWorkers(ws, x, k) == 0
  {
    if ws != [] {
      assert ws[0] in ws && forall w | w in ws[1..] :: w in ws;
      NothingInWorkers(ws[1..], x, k);
    }
  }

  lemma {:induction false} DistinctCount(q: seq<nat>, x: nat)
    requires forall i, j | 0 <= i < j < |q| :: q[i] != q[j]
    ensures multiset(q)[x] == If(x in q)
  {
    if q != [] {
      CountTail(q, x);
      DistinctCount(q[1..], x);
      if x == q[0] { assert forall i | 0 < i < |q| :: q[i] != x; }
    }
  }

  lemma StartOwned(s: Sys)
    requires Start(s)
    ensures Owned(s)
  {
    forall x: nat, k: Kind ensures Total(s, x, k) == Expected(s.services, x, k) {
      NothingInWorkers(s.ws, x, k);
      DistinctCount(s.schedule, x);
    }
  }

  lemma StartControl(s: Sys)
    requires Start(s)
    ensures s.Sys? && Control(s) && Bound(s)
  {
    assert forall k | 0 <= k < |s.ws| :: s.ws[k] in s.ws;
  }

  lemma StartAwake(s: Sys)
    requires Start(s)
    ensures s.Sys? && Awake(s) && Strand(s) && Budget(s)
  {
    assert forall k | 0 <= k < |s.ws| :: s.ws[k] in s.ws;
  }

  lemma StartTraced(s: Sys)
    requires Start(s)
    ensures s.Sys? && Traced(s)
  {
    assert forall k | 0 <= k < |s.ws| :: s.ws[k] in s.ws;
  }

  lemma StartGood(s: Sys)
    requires Start(s)
    ensures s.Sys? && Good(s)
  {
    hide Start, Owned, Control, Bound, Budget, Awake, Strand, Traced;
    StartOwned(s);
    StartControl(s);
    StartAwake(s);
    StartTraced(s);
  }

  // -------------------------------------------------------------------- steps

  // One step keeps all the invariants. Two assertions may fail in it: the one
  // at the end of step 4, and in step 2 the one that a dead service has a
  // signal, for a service whose signal was lost and for no other.
  lemma StepKeeps(s: Sys, i: nat, e: Env)
    requires s.Sys? && Good(s) && Allowed(s, i, e)
    ensures Step(s, i, e).Sys? ==> Good(Step(s, i, e))
    ensures Step(s, i, e).Broken? <==> i < |s.ws| && s.owner == i && StrayHead(s)
  {
    hide Control, Owned, Budget, Bound, Awake, Strand, Traced, WorkerStep, SchedulerStep, Allowed, StrayHead;
    if i < |s.ws| {
      AllowedCases(s, i, e);
      NoHead(s);
      if s.phase != Off && s.owner == i {
        SchedulerBudget(s, e);
        if SchedulerStep(s, e).Sys? {
          SchedulerBound(s, e);
          SchedulerAwake(s, e);
          SchedulerStrand(s, e);
          SchedulerTraced(s, e);
        }
      } else {
        WorkerKeeps(s, i, e);
        WorkerBudget(s, i, e);
        WorkerBound(s, i, e);
        WorkerAwake(s, i, e);
        WorkerStrand(s, i, e);
        WorkerTraced(s, i, e);
      }
    }
  }

  lemma AllowedCases(s: Sys, i: nat, e: Env)
    requires s.Sys? && Allowed(s, i, e) && i < |s.ws|
    ensures s.phase != Off && s.owner == i ==> AllowedRoute(s, e)
  {
  }

  lemma {:induction false} RunKeeps(s: Sys, actions: seq<Action>)
    requires s.Sys? ==> Good(s)
    requires AllAllowed(s, actions)
    ensures RunAll(s, actions).Sys? ==> Good(RunAll(s, actions))
    decreases |actions|
  {
    hide Good, Step, Allowed;
    if actions != [] {
      var a := actions[0];
      if s.Sys? { StepKeeps(s, a.worker, a.env); } else { FailedStays(s, a.worker, a.env); }
      RunKeeps(Step(s, a.worker, a.env), actions[1..]);
    }
  }

  lemma FailedStays(s: Sys, i: nat, e: Env)
    requires !s.Sys?
    ensures Step(s, i, e) == s
  {
  }

  // ------------------------------------------------------------- main results

  // A state some run from the start reaches.
  ghost predicate Reaches(s0: Sys, actions: seq<Action>, s: Sys) {
    Start(s0) && AllAllowed(s0, actions) && RunAll(s0, actions) == s
  }

  lemma ReachedIsGood(s0: Sys, actions: seq<Action>, s: Sys)
    requires Reaches(s0, actions, s)
    ensures s.Sys? ==> Good(s)
  {
    hide Good, Start, AllAllowed, RunAll;
    StartGood(s0);
    RunKeeps(s0, actions);
  }

  // A service is in at most one place, of the kind its status tells; it is
  // nowhere just when its status says that it is not under way. A dead service
  // is under way while its signal is to be sent, or has been lost.
  lemma OnePlace(s0: Sys, actions: seq<Action>, s: Sys, x: nat)
    requires Reaches(s0, actions, s) && s.Sys?
    ensures Total(s, x, Ready) == If(StatusOf(s.services, x) == Schedule || (x in s.services && s.services[x].loss == Requeued))
    ensures Total(s, x, Active) == If(StatusOf(s.services, x) == Running)
    ensures Total(s, x, Finished) ==
      If(StatusOf(s.services, x) == Done || (x in s.services && (s.services[x].signal || s.services[x].loss == Rerun)))
    ensures Total(s, x, Ready) + Total(s, x, Active) + Total(s, x, Finished) <= 1
  {
    hide Reaches;
    ReachedIsGood(s0, actions, s);
    assert forall k: Kind :: Total(s, x, k) == Expected(s.services, x, k);
    assert GoodServices(s.services, |s.ws|);
    if x in s.services { assert GoodService(s.services[x], |s.ws|); }
  }

  // No two workers ever run, or hold, the same service.
  lemma OneOwner(s0: Sys, actions: seq<Action>, s: Sys, i: nat, j: nat)
    requires Reaches(s0, actions, s) && s.Sys? && i < j < |s.ws|
    requires Held(s.ws[i].pc).0 != 0
    ensures Held(s.ws[i].pc).0 != Held(s.ws[j].pc).0
  {
    hide Reaches;
    ReachedIsGood(s0, actions, s);
    var x := Held(s.ws[i].pc).0;
    if Held(s.ws[j].pc).0 == x {
      HeldIsOwned(s, i);
      HeldIsOwned(s, j);
      assert Held(s.ws[i].pc).1 == Held(s.ws[j].pc).1;
      HoldsTwo(s.ws, i, j, x, Held(s.ws[i].pc).1);
      OnePlace(s0, actions, s, x);
    }
  }

  // A service about to run is unbound or bound to the worker that runs it; a
  // binding queue holds at most 16, all of them bound to its worker.
  lemma BoundServicesStayPut(s0: Sys, actions: seq<Action>, s: Sys, k: nat)
    requires Reaches(s0, actions, s) && s.Sys? && k < |s.ws|
    ensures s.ws[k].pc.Check? ==> OkAt(s.services, s.ws[k].pc.id, k)
    ensures s.ws[k].ready != 0 ==> OkAt(s.services, s.ws[k].ready, k)
    ensures |s.ws[k].queue| <= BINDING_SERVICE_QUEUE
    ensures forall x | x in s.ws[k].queue :: BindingOf(s.services, x) == k
  {
    hide Reaches, Owned, Control;
    ReachedIsGood(s0, actions, s);
    assert WorkerOk(s.services, s.ws[k], k);
  }

  // A service that waits keeps its binding until it runs, ...
  lemma BindingStays(s: Sys, i: nat, e: Env, x: nat)
    requires s.Sys? && Good(s) && Allowed(s, i, e) && Step(s, i, e).Sys? && Expected(s.services, x, Ready) == 1
    ensures BindingOf(Step(s, i, e).services, x) == BindingOf(s.services, x)
  {
    hide Owned, Control, Budget, Awake, Strand, Traced, WorkerStep, SchedulerStep, Allowed;
    if i < |s.ws| {
      AllowedCases(s, i, e);
      if s.phase != Off && s.owner == i {
        if s.phase.Route? || s.phase.Settle? { RoutingStable(s, e); } else { OnlyRouting(s, e); }
      } else {
        WorkerStable(s, i, e);
      }
    }
  }

  // ... and the worker it is taken by is the one that has it in hand.
  lemma WorkerWaits(s: Sys, i: nat, e: Env, x: nat)
    requires s.Sys? && Good(s) && Allowed(s, i, e) && i < |s.ws| && (s.phase == Off || s.owner != i)
    requires StatusOf(s.services, x) == Schedule && WorkerStep(s, i, e).Sys?
    ensures StatusOf(WorkerStep(s, i, e).services, x) == Schedule ||
      (s.ws[i].pc == Check(x) && |WorkerStep(s, i, e).ws| == |s.ws| && WorkerStep(s, i, e).ws[i].pc == SchedModel.Run(x))
  {
    hide Owned, Control, Budget, Bound, Awake, Strand, Traced, WorkerStep;
    if s.ws[i].pc.Run? {
      RunWaits(s, i, e, x);
    } else if s.ws[i].pc.Check? {
      CheckWaits(s, i, e, x);
    } else {
      ServicesKept(s, i, e);
    }
  }

  lemma RunWaits(s: Sys, i: nat, e: Env, x: nat)
    requires s.Sys? && Control(s) && Owned(s) && i < |s.ws| && s.ws[i].pc.Run? && AllowedEvent(s, s.ws[i].pc.id, e.event)
    requires StatusOf(s.services, x) == Schedule
    ensures WorkerStep(s, i, e).Sys? && StatusOf(WorkerStep(s, i, e).services, x) == Schedule
  {
    hide Owned, Control;
    Facts(s, i);
    HeldIsOwned(s, i);
  }

  lemma CheckWaits(s: Sys, i: nat, e: Env, x: nat)
    requires s.Sys? && Control(s) && Owned(s) && i < |s.ws| && s.ws[i].pc.Check? && StatusOf(s.services, x) == Schedule
    ensures var t := WorkerStep(s, i, e);
      t.Sys? && |t.ws| == |s.ws| &&
      (StatusOf(t.services, x) == Schedule || (s.ws[i].pc == Check(x) && t.ws[i].pc == SchedModel.Run(x)))
  {
    hide Owned, Control;
    CheckOwned(s, i, e);
  }

  lemma SchedulerWaits(s: Sys, e: Env, x: nat)
    requires s.Sys? && Good(s) && s.phase != Off && AllowedRoute(s, e) && 0 <= s.owner < |s.ws|
    requires StatusOf(s.services, x) == Schedule && SchedulerStep(s, e).Sys?
    ensures StatusOf(SchedulerStep(s, e).services, x) == Schedule
  {
    hide Owned, Control, Budget, Bound, Awake, Strand, Traced;
    if s.phase.Route? {
      if s.phase.jobs != [] { RoutedHead(s); }
    } else if s.phase.Settle? {
      Facts2(s);
    } else {
      OnlyRouting(s, e);
    }
  }

  lemma RunsOnce(s: Sys, i: nat, j: nat, x: nat)
    requires s.Sys? && Good(s) && i < |s.ws| && j < |s.ws|
    requires s.ws[i].pc == SchedModel.Run(x) && s.ws[j].pc == SchedModel.Run(x)
    ensures i == j && StatusOf(s.services, x) == Running
  {
    hide Budget, Bound, Awake, Strand, Traced, InWorkers;
    HeldIsOwned(s, i);
    if i != j { HoldsTwo(s.ws, if i < j then i else j, if i < j then j else i, x, Active); }
    assert Total(s, x, Active) == Expected(s.services, x, Active);
  }

  // One step of a run in which x waits: x waits on, or its worker runs it.
  lemma StepOfWaiting(s: Sys, i: nat, e: Env, x: nat)
    requires s.Sys? && Good(s) && Allowed(s, i, e) && Step(s, i, e).Sys?
    requires StatusOf(s.services, x) == Schedule && BindingOf(s.services, x) >= 0
    ensures var t := Step(s, i, e);
      || (StatusOf(t.services, x) == Schedule && BindingOf(t.services, x) == BindingOf(s.services, x))
      || (i == BindingOf(s.services, x) && i < |t.ws| && t.ws[i].pc == SchedModel.Run(x))
  {
    hide Owned, Control, Budget, Awake, Strand, Traced, WorkerStep, SchedulerStep, Allowed;
    BindingStays(s, i, e, x);
    if i < |s.ws| {
      AllowedCases(s, i, e);
      if s.phase != Off && s.owner == i {
        SchedulerWaits(s, e, x);
      } else {
        WorkerWaits(s, i, e, x);
        assert WorkerOk(s.services, s.ws[i], i);
      }
    }
  }

  // Over the run, worker i is the first to run x.
  ghost predicate FirstToRun(s: Sys, more: seq<Action>, x: nat, i: nat)
    decreases |more|
  {
    more != [] &&
    var t := Step(s, more[0].worker, more[0].env);
    t.Sys? &&
    if exists j :: 0 <= j < |t.ws| && t.ws[j].pc == SchedModel.Run(x) then i < |t.ws| && t.ws[i].pc == SchedModel.Run(x)
    else FirstToRun(t, more[1..], x, i)
  }

  // A service that waits and is bound is next run by its worker, whatever
  // happens in between.
  lemma {:induction false} BoundServiceRunsAtHome(s: Sys, more: seq<Action>, x: nat, i: nat)
    requires s.Sys? && Good(s) && AllAllowed(s, more) && FirstToRun(s, more, x, i)
    requires StatusOf(s.services, x) == Schedule && BindingOf(s.services, x) >= 0
    ensures i == BindingOf(s.services, x)
    decreases |more|
  {
    hide Good, Step, Allowed;
    var a := more[0];
    var t := Step(s, a.worker, a.env);
    StepKeeps(s, a.worker, a.env);
    StepOfWaiting(s, a.worker, a.env, x);
    if j :| 0 <= j < |t.ws| && t.ws[j].pc == SchedModel.Run(x) {
      RunsOnce(t, i, j, x);
      if a.worker < |t.ws| && t.ws[a.worker].pc == SchedModel.Run(x) { RunsOnce(t, i, a.worker, x); }
    } else {
      BoundServiceRunsAtHome(t, more[1..], x, i);
    }
  }

  // ... in particular from any state a run reaches.
  lemma NextRunIsAtHome(s0: Sys, actions: seq<Action>, s: Sys, more: seq<Action>, x: nat, i: nat)
    requires Reaches(s0, actions, s) && s.Sys? && AllAllowed(s, more) && FirstToRun(s, more, x, i)
    requires StatusOf(s.services, x) == Schedule && BindingOf(s.services, x) >= 0
    ensures i == BindingOf(s.services, x)
  {
    hide Good, Reaches, AllAllowed, FirstToRun;
    ReachedIsGood(s0, actions, s);
    BoundServiceRunsAtHome(s, more, x, i);
  }

  // A worker blocked with a job in its slot is just about to be woken, and the
  // wake-up lets it go.
  lemma NoLostWakeup(s0: Sys, actions: seq<Action>, s: Sys, k: nat)
    requires Reaches(s0, actions, s) && s.Sys? && k < |s.ws| && Blocked(s.ws[k])
    ensures s.ws[k].ready != 0 ==> AboutToWake(s.phase, k)
    ensures !Blocked(Wake(s.ws[k])) && OwnStep(Wake(s.ws[k]), s.blocked).pc == Top
    ensures s.ws[k].done == 0
  {
    hide Reaches, Owned, Control;
    ReachedIsGood(s0, actions, s);
    assert GoodSleeper(s.ws[k], s.phase, k);
  }

  // A worker that has been told to leave and woken never blocks again.
  lemma {:induction false} StaysAwake(s: Sys, actions: seq<Action>, k: nat)
    requires s.Sys? && Good(s) && AllAllowed(s, actions) && k < |s.ws| && Leaving(s.ws[k])
    ensures var t := RunAll(s, actions); t.Sys? ==> k < |t.ws| && !Blocked(t.ws[k])
    decreases |actions|
  {
    hide Good, Step, Allowed;
    if actions == [] {
      LeavingIsUnblocked(s.ws[k]);
    } else {
      var a := actions[0];
      StepKeeps(s, a.worker, a.env);
      var t := Step(s, a.worker, a.env);
      if t.Sys? {
        StepLeaves(s, a.worker, a.env, k);
        StaysAwake(t, actions[1..], k);
      } else {
        FailedRun(t, actions[1..]);
      }
    }
  }

  lemma LeavingIsUnblocked(w: Worker)
    requires Leaving(w)
    ensures !Blocked(w)
  {
  }

  lemma {:induction false} FailedRun(s: Sys, actions: seq<Action>)
    requires !s.Sys?
    ensures RunAll(s, actions) == s
    decreases |actions|
  {
    if actions != [] { FailedRun(s, actions[1..]); }
  }

  lemma StepLeaves(s: Sys, i: nat, e: Env, k: nat)
    requires s.Sys? && Good(s) && Allowed(s, i, e) && k < |s.ws| && Leaving(s.ws[k]) && Step(s, i, e).Sys?
    ensures k < |Step(s, i, e).ws| && Leaving(Step(s, i, e).ws[k])
  {
    hide Control, Owned, Budget, Bound, Strand, Traced, WorkerStep, SchedulerStep, Allowed;
    if i < |s.ws| {
      if s.phase != Off && s.owner == i {
        SchedulerLeaves(s, e, k);
      } else if Quits(s.ws[i].pc) {
        QuitterLeaves(s, i, e, k);
      } else {
        Effect(s, i, e);
        if k == i { MoverAwake(s, i, e); }
      }
    }
  }

  lemma QuitterLeaves(s: Sys, i: nat, e: Env, k: nat)
    requires s.Sys? && i < |s.ws| && k < |s.ws| && Quits(s.ws[i].pc) && Leaving(s.ws[k])
    requires GoodSleeper(s.ws[k], s.phase, k)
    ensures var t := WorkerStep(s, i, e); t.Sys? && |t.ws| == |s.ws| && Leaving(t.ws[k])
  {
  }

  lemma HandledLeaves(w: Worker, v: Worker, p: Phase, k: nat)
    requires Handled(w, v) && Leaving(w) && GoodSleeper(w, p, k)
    ensures Leaving(v)
  {
  }

  lemma SchedulerLeaves(s: Sys, e: Env, k: nat)
    requires s.Sys? && Good(s) && s.phase != Off && k < |s.ws| && Leaving(s.ws[k]) && 0 <= s.owner < |s.ws|
    requires SchedulerStep(s, e).Sys?
    ensures k < |SchedulerStep(s, e).ws| && Leaving(SchedulerStep(s, e).ws[k])
  {
    hide Owned, Budget, Bound, Strand, Traced, SchedulerStep, Leaving;
    assert GoodSleeper(s.ws[k], s.phase, k);
    SchedulerHandles(s, e, k);
    HandledLeaves(s.ws[k], SchedulerStep(s, e).ws[k], s.phase, k);
  }

  // ------------------------------------------------------------ stranded work

  ghost predicate AllBlocked(s: Sys)
    requires s.Sys?
  {
    s.owner == NONE && forall k | 0 <= k < |s.ws| :: Blocked(s.ws[k])
  }

  // No job is left anywhere.
  ghost predicate NothingLeft(s: Sys)
    requires s.Sys?
  {
    NoWork(s) && forall k | 0 <= k < |s.ws| :: !Engaged(s.ws[k])
  }

  // Until the scheduler has been acquired once, nothing happens to the queue.
  ghost predicate Untouched(s0: Sys, s: Sys)
    requires s0.Sys? && s.Sys?
  {
    !s.started ==> s.schedule == s0.schedule && s.owner == NONE
  }

  lemma UntouchedKept(s0: Sys, s: Sys, i: nat, e: Env)
    requires s0.Sys? && s.Sys? && Good(s) && Untouched(s0, s) && Step(s, i, e).Sys?
    ensures Untouched(s0, Step(s, i, e))
  {
    hide Control, Owned, Budget, Bound, Awake, Strand, Traced, WorkerStep, SchedulerStep;
    if i < |s.ws| {
      if s.phase != Off && s.owner == i {
        SchedulerStays(s, e);
      } else if Quits(s.ws[i].pc) {
        QuitsEffect(s, i, e);
      } else {
        Effect(s, i, e);
        if s.phase == Off { IdleEffect(s, i, e); } else { RoundKept(s, i, e); }
      }
    }
  }

  lemma {:induction false} UntouchedRun(s0: Sys, s: Sys, actions: seq<Action>)
    requires s0.Sys? && s.Sys? && Good(s) && Untouched(s0, s) && AllAllowed(s, actions) && RunAll(s, actions).Sys?
    ensures Untouched(s0, RunAll(s, actions))
    decreases |actions|
  {
    hide Good, Step, Allowed, Untouched;
    if actions != [] {
      var a := actions[0];
      StepKeeps(s, a.worker, a.env);
      var t := Step(s, a.worker, a.env);
      if !t.Sys? { FailedRun(t, actions[1..]); }
      UntouchedKept(s0, s, a.worker, a.env);
      UntouchedRun(s0, t, actions[1..]);
    }
  }

  lemma BlockedIsIdle(s: Sys, k: nat)
    requires s.Sys? && Awake(s) && Control(s) && s.owner == NONE && k < |s.ws| && Blocked(s.ws[k])
    ensures !Engaged(s.ws[k]) && !Stopper(s.ws[k].pc)
  {
    assert GoodSleeper(s.ws[k], s.phase, k);
  }

  // When everybody sleeps, no worker has anything.
  lemma BlockedFacts(s: Sys)
    requires s.Sys? && Good(s) && AllBlocked(s)
    ensures !Busy(s.ws) && !Stopping(s.ws) && s.phase == Off
  {
    hide Owned, Budget, Bound, Strand, Engaged, Stopper, GoodSleeper, Quitting;
    forall k | 0 <= k < |s.ws| ensures !Engaged(s.ws[k]) && !Stopper(s.ws[k].pc) {
      BlockedIsIdle(s, k);
    }
  }

  // A worker starts with nothing bound to it; before the first round binding
  // queues are empty.
  lemma NoStrandedWork(s0: Sys, actions: seq<Action>, s: Sys)
    requires Reaches(s0, actions, s) && s.Sys? && AllBlocked(s)
    ensures s.started ==> NothingLeft(s)
  {
    hide Reaches, Control, Owned, Budget, Bound, Awake;
    ReachedIsGood(s0, actions, s);
    BlockedFacts(s);
  }

  // Workers that all went to sleep before anyone got the scheduler, because
  // the weak compare-and-swap may fail for no reason, leave what bootstrap
  // scheduled where it is. So: nothing is stranded if and only if the
  // scheduler was acquired once, or there was nothing to start with.
  lemma StrandedIffNeverAcquired(s0: Sys, actions: seq<Action>, s: Sys)
    requires Reaches(s0, actions, s) && s.Sys? && AllBlocked(s)
    ensures s.schedule == [] <==> s.started || s0.schedule == []
  {
    NoStrandedWork(s0, actions, s);
    hide Good, Start, AllAllowed, RunAll, AllBlocked, NothingLeft;
    StartGood(s0);
    StartUntouched(s0);
    UntouchedRun(s0, s0, actions);
  }

  lemma StartUntouched(s0: Sys)
    requires Start(s0)
    ensures Untouched(s0, s0)
  {
  }

  // ------------------------------------------- asleep before the first round

  const FAIL := Env(true, false, NoMessage, Compute)
  const NEW := Worker(Top, 0, 0, 0, [], false, false, false, false)
  const ASLEEP := Worker(Waiting, 0, 0, 0, [], false, true, false, false)

  // Worker i is at `pc` for the first time; the scheduler was never acquired.
  function At(s: Sys, i: nat, pc: Pc): Sys
    requires s.Sys? && i < |s.ws|
  {
    s.(ws := s.ws[i := NEW.(pc := pc, sleeping := pc.Waiting?)])
  }

  // The way from the start of thread_worker into cond_wait, when the swap in
  // acquire_scheduler fails.
  function NextPc(pc: Pc): Pc {
    match pc
    case Top => Get
    case Get => Acquire(true)
    case Acquire(_) => CheckDone(true)
    case CheckDone(_) => Decide(true)
    case Decide(_) => Sleep
    case Sleep => Lock
    case Lock => Locked
    case _ => Waiting
  }

  function StepsToSleep(pc: Pc): nat {
    match pc
    case Top => 8
    case Get => 7
    case Acquire(_) => 6
    case CheckDone(_) => 5
    case Decide(_) => 4
    case Sleep => 3
    case Lock => 2
    case Locked => 1
    case _ => 0
  }

  predicate OnPath(pc: Pc) {
    pc in {Top, Get, Acquire(true), CheckDone(true), Decide(true), Sleep, Lock, Locked, Waiting}
  }

  lemma NapStep(s: Sys, i: nat, pc: Pc)
    requires s.Sys? && i < |s.ws| && s.phase == Off && !s.blocked && OnPath(pc) && pc != Waiting
    ensures Step(At(s, i, pc), i, FAIL) == At(s, i, NextPc(pc)) && Allowed(At(s, i, pc), i, FAIL)
  {
    var t := At(s, i, pc);
    var w := OwnStep(t.ws[i], false);
    if pc != Acquire(true) { assert t.ws[i := w] == s.ws[i := w]; }
    var v := NEW.(pc := CheckDone(true));
    if pc == Acquire(true) { assert t.ws[i := v] == s.ws[i := v]; }
  }

  lemma {:induction false} Nap(s: Sys, i: nat, pc: Pc) returns (actions: seq<Action>)
    requires s.Sys? && i < |s.ws| && s.phase == Off && !s.blocked && OnPath(pc)
    ensures RunAll(At(s, i, pc), actions) == At(s, i, Waiting) && AllAllowed(At(s, i, pc), actions)
    decreases StepsToSleep(pc)
  {
    hide At, Step, Allowed;
    actions := [];
    if pc != Waiting {
      NapStep(s, i, pc);
      var rest := Nap(s, i, NextPc(pc));
      actions := [Action(i, FAIL)] + rest;
      assert actions[1..] == rest;
    }
  }

  lemma {:induction false} RunConcat(s: Sys, xs: seq<Action>, ys: seq<Action>)
    ensures RunAll(s, xs + ys) == RunAll(RunAll(s, xs), ys)
    ensures AllAllowed(s, xs) && AllAllowed(RunAll(s, xs), ys) ==> AllAllowed(s, xs + ys)
    decreases |xs|
  {
    hide Step, Allowed;
    if xs == [] {
      assert xs + ys == ys;
    } else {
      assert (xs + ys)[0] == xs[0] && (xs + ys)[1..] == xs[1..] + ys;
      RunConcat(Step(s, xs[0].worker, xs[0].env), xs[1..], ys);
    }
  }

  // The first k workers asleep, the others as they were.
  function Dozing(s: Sys, k: nat): Sys
    requires s.Sys? && k <= |s.ws|
  {
    s.(ws := seq(k, _ => ASLEEP) + s.ws[k..])
  }

  lemma OneMore(ws: seq<Worker>, k: nat)
    requires 0 < k <= |ws|
    ensures (seq(k - 1, _ => ASLEEP) + ws[k - 1..])[k - 1 := ASLEEP] == seq(k, _ => ASLEEP) + ws[k..]
  {
    var a := (seq(k - 1, _ => ASLEEP) + ws[k - 1..])[k - 1 := ASLEEP];
    var b := seq(k, _ => ASLEEP) + ws[k..];
    assert |a| == |b| && forall j | 0 <= j < |a| :: a[j] == b[j];
  }

  lemma {:induction false} AllDoze(s: Sys, k: nat) returns (actions: seq<Action>)
    requires Start(s) && k <= |s.ws|
    ensures RunAll(s, actions) == Dozing(s, k) && AllAllowed(s, actions)
  {
    actions := [];
    if k == 0 {
      assert Dozing(s, 0).ws == s.ws;
    } else {
      var before := AllDoze(s, k - 1);
      var t := Dozing(s, k - 1);
      assert s.ws[k - 1] in s.ws && t.ws[k - 1] == NEW;
      assert At(t, k - 1, Top).ws == t.ws;
      var nap := Nap(t, k - 1, Top);
      RunConcat(s, before, nap);
      OneMore(s.ws, k);
      actions := before + nap;
    }
  }

  // From every start there is a run after which all workers sleep and nobody
  // has ever had the scheduler: what was scheduled is never run.
  lemma StartCanStrand(s0: Sys) returns (actions: seq<Action>)
    requires Start(s0)
    ensures var s := RunAll(s0, actions);
      Reaches(s0, actions, s) && s.Sys? && AllBlocked(s) && !s.started && s.schedule == s0.schedule
  {
    actions := AllDoze(s0, |s0.ws|);
  }

  // ------------------------------------------------------- the budget, again

  predicate NeverBind(actions: seq<Action>) {
    forall a | a in actions :: NeverBinds(a.env)
  }

  lemma UnboundStep(s: Sys, i: nat, e: Env)
    requires s.Sys? && Good(s) && Allowed(s, i, e) && Unbound(s) && NeverBinds(e)
    ensures var t := Step(s, i, e); t.Broken? || (t.Sys? && Good(t) && Unbound(t))
  {
    hide Control, Owned, Budget, Bound, Awake, Strand, Traced, Unbound, WorkerStep, SchedulerStep, Allowed, StrayHead;
    StepKeeps(s, i, e);
    if i < |s.ws| && !Step(s, i, e).Broken? {
      if s.phase != Off && s.owner == i { SchedulerUnbound(s, e); } else { WorkerKeeps(s, i, e); WorkerUnbound(s, i, e); }
    }
  }

  lemma {:induction false} UnboundRun(s: Sys, actions: seq<Action>)
    requires s.Sys? && Good(s) && Unbound(s) && AllAllowed(s, actions) && NeverBind(actions)
    ensures !RunAll(s, actions).Aborted?
    decreases |actions|
  {
    hide Good, Unbound, Step, Allowed, NeverBinds;
    if actions != [] {
      var a := actions[0];
      assert a in actions && forall b | b in actions[1..] :: b in actions;
      UnboundStep(s, a.worker, a.env);
      var t := Step(s, a.worker, a.env);
      if t.Sys? { UnboundRun(t, actions[1..]); } else { FailedRun(t, actions[1..]); }
    }
  }

  // As long as no service is bound, free_slot >= job_n holds in every round.
  lemma UnboundNeverAborts(s0: Sys, actions: seq<Action>)
    requires Start(s0) && AllAllowed(s0, actions) && NeverBind(actions)
    requires forall x | x in s0.services :: s0.services[x].binding == -1
    ensures !RunAll(s0, actions).Aborted?
  {
    StartGood(s0);
    assert forall k | 0 <= k < |s0.ws| :: s0.ws[k] in s0.ws;
    assert Unbound(s0);
    hide Good, Unbound, Start;
    UnboundRun(s0, actions);
  }

  lemma CountStep(s: Sys, e: Env) returns (n: nat)
    requires s.Sys? && 0 <= s.owner < |s.ws| && s.phase.Count? && s.phase.k < |s.ws|
    requires forall j | 0 <= j < |s.ws| :: !s.ws[j].pc.Locked?
    ensures n in {1, 2}
    ensures var t := RunAll(s, seq(n, _ => Action(s.owner, e)));
      && t.Sys? && t.owner == s.owner && |t.ws| == |s.ws| && (forall j | 0 <= j < |s.ws| :: !t.ws[j].pc.Locked?)
      && (forall j | s.phase.k < j < |s.ws| :: t.ws[j] == s.ws[j])
      && t.phase == Count(s.phase.k + 1, s.phase.free + If(Empty(s.ws[s.phase.k])), s.phase.jobs, s.phase.from)
  {
    var k := s.phase.k;
    Repeated(s, Action(s.owner, e));
    if s.ws[k].ready == 0 && s.ws[k].queue != [] {
      n := 2;
      CountTakes(s, e);
    } else {
      n := 1;
      assert Step(s, s.owner, e).ws == s.ws;
    }
  }

  lemma Repeated(s: Sys, a: Action)
    ensures RunAll(s, seq(1, _ => a)) == Step(s, a.worker, a.env)
    ensures RunAll(s, seq(2, _ => a)) == Step(Step(s, a.worker, a.env), a.worker, a.env)
  {
    hide Step;
    assert seq(1, _ => a) == [a] && seq(2, _ => a) == [a, a] && [a, a][1..] == [a] && [a][1..] == [];
    var t := Step(s, a.worker, a.env);
    assert RunAll(t, [a]) == Step(t, a.worker, a.env);
  }

  lemma CountTakes(s: Sys, e: Env)
    requires s.Sys? && 0 <= s.owner < |s.ws| && s.phase.Count? && s.phase.k < |s.ws|
    requires var w := s.ws[s.phase.k]; w.ready == 0 && w.queue != [] && !w.pc.Locked?
    ensures var k := s.phase.k;
      Step(Step(s, s.owner, e), s.owner, e) ==
        s.(ws := s.ws[k := Wake(TakeBound(s.ws[k]))], blocked := true, phase := Count(k + 1, s.phase.free, s.phase.jobs, s.phase.from))
  {
    var k := s.phase.k;
    var v := TakeBound(s.ws[k]);
    var t := s.(ws := s.ws[k := v], blocked := true, phase := CountWake(k, s.phase.free, s.phase.jobs, s.phase.from));
    assert Step(s, s.owner, e) == t;
    assert t.ws[k := Wake(v)] == s.ws[k := Wake(v)];
  }

  lemma {:induction false} SameEmpties(ws: seq<Worker>, vs: seq<Worker>, k: nat)
    requires k <= |ws| == |vs| && forall j | k <= j < |ws| :: vs[j] == ws[j]
    ensures Empties(vs, k) == Empties(ws, k)
    decreases |ws| - k
  {
    if k < |ws| { SameEmpties(ws, vs, k + 1); }
  }

  lemma Repeat(a: Action, m: nat, n: nat)
    ensures seq(m, _ => a) + seq(n, _ => a) == seq(m + n, _ => a)
  {
  }

  // When the workers keep still, step 4 counts the workers that have neither a
  // job nor a queue; the assertion holds if and only if there are as many of
  // them as jobs were stolen in step 3. A stolen job's worker is not among
  // them when it has a binding queue.
  lemma {:induction false} AbortsIffTooFewSlots(s: Sys, e: Env) returns (n: nat)
    requires s.Sys? && 0 <= s.owner < |s.ws| && s.phase.Count? && s.phase.k <= |s.ws|
    requires forall j | 0 <= j < |s.ws| :: !s.ws[j].pc.Locked?
    ensures var t := RunAll(s, seq(n, _ => Action(s.owner, e)));
      var free := s.phase.free + Empties(s.ws, s.phase.k);
      if free < |s.phase.jobs| then t.Aborted? else t.Sys? && t.phase == Prepare(free - |s.phase.jobs|, s.phase.jobs)
    decreases |s.ws| - s.phase.k
  {
    hide Step, RunAll, Empties;
    var a := Action(s.owner, e);
    Repeated(s, a);
    if s.phase.k == |s.ws| {
      n := 1;
      EmptiesEnd(s.ws);
      CountEnd(s, e);
    } else {
      EmptiesNext(s.ws, s.phase.k);
      var m := CountStep(s, e);
      var t := RunAll(s, seq(m, _ => a));
      SameEmpties(s.ws, t.ws, s.phase.k + 1);
      var rest := AbortsIffTooFewSlots(t, e);
      n := m + rest;
      Repeat(a, m, rest);
      RunConcat(s, seq(m, _ => a), seq(rest, _ => a));
    }
  }

  lemma CountEnd(s: Sys, e: Env)
    requires s.Sys? && 0 <= s.owner < |s.ws| && s.phase.Count? && s.phase.k == |s.ws|
    ensures Step(s, s.owner, e) == if s.phase.free < |s.phase.jobs| then Aborted
      else s.(phase := Prepare(s.phase.free - |s.phase.jobs|, s.phase.jobs))
  {
  }

  // ------------------------------------------------------ step 6 comes to an end

  // How much of the three sweeps is left; a wake-up is half a try.
  function SweepsLeft(p: Phase, n: nat): nat {
    match p
    case Assign(k, busy, bound, _) => 2 * TriesLeft(k, busy, bound, n) + 2
    case AssignWake(k, busy, bound, _) => 2 * TriesLeft(k, busy, bound, n) + 1
    case _ => 0
  }

  function TriesLeft(k: nat, busy: bool, bound: bool, n: nat): nat {
    (if bound then 0 else if busy then n + 1 else n + n + 2) + (if k <= n then n - k else 0)
  }

  lemma TryUsesUp(s: Sys, e: Env)
    requires s.Sys? && Budget(s) && (s.phase.Assign? || s.phase.AssignWake?) && 0 <= s.owner < |s.ws|
    requires s.phase.AssignWake? ==> s.phase.k < |s.ws| && !s.ws[s.phase.k].pc.Locked?
    ensures var t := SchedulerStep(s, e); t.Sys? && (t.phase.Assign? || t.phase.AssignWake? || t.phase.Trigger?)
    ensures SweepsLeft(SchedulerStep(s, e).phase, |s.ws|) < SweepsLeft(s.phase, |s.ws|) <= 6 * (|s.ws| + 1)
  {
    hide Empties;
    if s.phase.Assign? { AssignBudget(s, e); } else { AssignWakeBudget(s, e); }
  }

  // Every step of the scheduler in step 6, but waiting for the lock, uses up
  // some of them: whatever the workers do, it ends within three sweeps.
  lemma AssignEnds(s0: Sys, actions: seq<Action>, s: Sys, e: Env)
    requires Reaches(s0, actions, s) && s.Sys? && (s.phase.Assign? || s.phase.AssignWake?)
    requires s.phase.AssignWake? ==> s.phase.k < |s.ws| && !s.ws[s.phase.k].pc.Locked?
    ensures 0 <= s.owner < |s.ws| && SchedulerStep(s, e).Sys?
    ensures SweepsLeft(SchedulerStep(s, e).phase, |s.ws|) < SweepsLeft(s.phase, |s.ws|) <= 6 * (|s.ws| + 1)
  {
    hide Reaches, Owned, Bound, Awake, Strand;
    ReachedIsGood(s0, actions, s);
    TryUsesUp(s, e);
  }
}
