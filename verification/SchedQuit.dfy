// Root's exit: the worker that ran it tells every worker to leave and wakes
// it, and until then nobody leaves.
module SchedQuit {
  import opened SchedModel
  import opened SchedOwner
  import opened SchedDispatch
  import opened SchedEffect
  import opened SchedBudget
  import opened SchedBound
  import opened SchedWake
  import opened SchedStrand
  import opened SchedStray
  import opened SchedTheorem

  predicate RootGone(s: Sys)
    requires s.Sys?
  {
    StatusOf(s.services, ROOT) == Dead
  }

  // A worker on its way round the others.
  ghost predicate Quitter(ws: seq<Worker>) {
    exists i :: 0 <= i < |ws| && Quits(ws[i].pc)
  }

  ghost predicate AllLeaving(ws: seq<Worker>) {
    forall k | 0 <= k < |ws| :: Leaving(ws[k])
  }

  ghost predicate Heard(s: Sys)
    requires s.Sys?
  {
    RootGone(s) ==> Quitter(s.ws) || AllLeaving(s.ws)
  }

  // ------------------------------------------------------- only root's exit

  // Root dies in the step in which its own worker finds that it has quit, ...
  lemma WorkerEndsRoot(s: Sys, i: nat, e: Env)
    requires s.Sys? && Control(s) && Owned(s) && Allowed(s, i, e) && i < |s.ws| && (s.phase == Off || s.owner != i)
    requires WorkerStep(s, i, e).Sys? && !RootGone(s)
    ensures RootGone(WorkerStep(s, i, e)) <==> s.ws[i].pc == SchedModel.Run(ROOT) && e.event.Exit?
  {
    hide Owned, Control;
    if s.ws[i].pc.Run? {
      HeldIsOwned(s, i);
    } else if s.ws[i].pc.Check? {
      CheckOwned(s, i, e);
    } else {
      ServicesKept(s, i, e);
    }
  }

  // ... and in no step of the scheduler.
  lemma SchedulerKeepsRoot(s: Sys, e: Env)
    requires s.Sys? && Control(s) && Owned(s) && s.phase != Off && AllowedRoute(s, e) && 0 <= s.owner < |s.ws|
    requires SchedulerStep(s, e).Sys? && !RootGone(s)
    ensures !RootGone(SchedulerStep(s, e))
  {
    hide Owned, Control;
    if s.phase.Route? {
      if s.phase.jobs != [] { RoutedHead(s); }
    } else if s.phase.Settle? {
      Facts2(s);
    } else {
      OnlyRouting(s, e);
    }
  }

  // ---------------------------------------------------------- the way round

  lemma SchedulerKeepsQuitter(s: Sys, e: Env)
    requires s.Sys? && Control(s) && s.phase != Off && 0 <= s.owner < |s.ws| && SchedulerStep(s, e).Sys?
    ensures Quitter(s.ws) ==> Quitter(SchedulerStep(s, e).ws)
  {
    hide Control, SchedulerStep;
    if Quitter(s.ws) {
      var i :| 0 <= i < |s.ws| && Quits(s.ws[i].pc);
      SchedulerHandles(s, e, i);
      assert Quits(SchedulerStep(s, e).ws[i].pc);
    }
  }

  // The last wake-up leaves nobody who could block.
  lemma QuitterStep(s: Sys, i: nat, e: Env)
    requires s.Sys? && Awake(s) && i < |s.ws| && Quits(s.ws[i].pc)
    ensures WorkerStep(s, i, e).Sys?
    ensures var t := WorkerStep(s, i, e); Quits(t.ws[i].pc) || (t.ws[i].pc.Exited? && AllLeaving(t.ws))
  {
    var w := s.ws[i];
    if w.pc.WakeAll? && w.pc.k >= |s.ws| { assert Quitting(s.ws, w.pc); }
  }

  lemma WorkerHeard(s: Sys, i: nat, e: Env)
    requires s.Sys? && Good(s) && Allowed(s, i, e) && i < |s.ws| && (s.phase == Off || s.owner != i)
    requires WorkerStep(s, i, e).Sys? && Quitter(s.ws)
    ensures var t := WorkerStep(s, i, e); Quitter(t.ws) || AllLeaving(t.ws)
  {
    hide Control, Owned, Budget, Bound, Awake, Strand, Traced, AllLeaving, WorkerStep;
    var t := WorkerStep(s, i, e);
    var j :| 0 <= j < |s.ws| && Quits(s.ws[j].pc);
    if Quits(s.ws[i].pc) {
      QuitterStep(s, i, e);
      QuitsEffect(s, i, e);
    } else {
      Effect(s, i, e);
      assert Quits(t.ws[j].pc);
    }
  }

  lemma LeavingStays(s: Sys, i: nat, e: Env)
    requires s.Sys? && Good(s) && Allowed(s, i, e) && Step(s, i, e).Sys? && AllLeaving(s.ws)
    ensures AllLeaving(Step(s, i, e).ws)
  {
    hide Good, Allowed, Leaving, Step;
    SameNumber(s, i, e);
    forall k | 0 <= k < |s.ws| ensures Leaving(Step(s, i, e).ws[k]) { StepLeaves(s, i, e, k); }
  }

  lemma SameNumber(s: Sys, i: nat, e: Env)
    requires s.Sys? && Good(s) && Step(s, i, e).Sys?
    ensures |Step(s, i, e).ws| == |s.ws|
  {
    hide Owned, Budget, Bound, Awake, Strand, Traced, WorkerStep, SchedulerStep;
    if i < |s.ws| {
      if s.phase != Off && s.owner == i {
        SchedulerHandles(s, e, i);
      } else if Quits(s.ws[i].pc) {
        QuitsEffect(s, i, e);
      } else {
        Effect(s, i, e);
      }
    }
  }

  lemma StepHeard(s: Sys, i: nat, e: Env)
    requires s.Sys? && Good(s) && Heard(s) && Allowed(s, i, e) && Step(s, i, e).Sys?
    ensures Heard(Step(s, i, e))
  {
    hide Control, Owned, Budget, Bound, Awake, Strand, Traced, AllLeaving, Quitter, WorkerStep, SchedulerStep, Allowed;
    if AllLeaving(s.ws) {
      LeavingStays(s, i, e);
    } else if i < |s.ws| {
      if s.phase != Off && s.owner == i {
        AllowedCases(s, i, e);
        if RootGone(s) { SchedulerKeepsQuitter(s, e); } else { SchedulerKeepsRoot(s, e); }
      } else if RootGone(s) {
        WorkerHeard(s, i, e);
      } else {
        WorkerEndsRoot(s, i, e);
        if RootGone(WorkerStep(s, i, e)) { ExitQuits(s, i, e); }
      }
    }
  }

  lemma ExitQuits(s: Sys, i: nat, e: Env)
    requires s.Sys? && i < |s.ws| && s.ws[i].pc == SchedModel.Run(ROOT) && e.event.Exit?
    ensures var t := WorkerStep(s, i, e); t.Sys? && |t.ws| == |s.ws| && t.ws[i].pc == QuitAll(0) && Quitter(t.ws)
  {
    assert Quits(WorkerStep(s, i, e).ws[i].pc);
  }

  lemma {:induction false} RunHeard(s: Sys, actions: seq<Action>)
    requires s.Sys? && Good(s) && Heard(s) && AllAllowed(s, actions) && RunAll(s, actions).Sys?
    ensures Heard(RunAll(s, actions))
    decreases |actions|
  {
    hide Good, Heard, Step, Allowed;
    if actions != [] {
      var a := actions[0];
      StepKeeps(s, a.worker, a.env);
      var t := Step(s, a.worker, a.env);
      if !t.Sys? { FailedRun(t, actions[1..]); }
      StepHeard(s, a.worker, a.env);
      RunHeard(t, actions[1..]);
    }
  }

  // ------------------------------------------------------------ main results

  // Root is gone just when a worker is on its way round the others, or all of
  // them have been told and woken. `s0` is a start with a root service.
  lemma RootsExitIsHeard(s0: Sys, actions: seq<Action>, s: Sys)
    requires Reaches(s0, actions, s) && s.Sys? && ROOT in s0.services
    ensures StatusOf(s.services, ROOT) == Dead <==> Quitter(s.ws) || AllLeaving(s.ws)
  {
    hide Good, AllAllowed, RunAll, Quitter, AllLeaving;
    StartGood(s0);
    RunHeard(s0, actions);
    RunKeeps(s0, actions);
    if Quitter(s.ws) || AllLeaving(s.ws) { OnlyThen(s); }
  }

  lemma OnlyThen(s: Sys)
    requires s.Sys? && Good(s) && (Quitter(s.ws) || AllLeaving(s.ws))
    ensures RootGone(s)
  {
    hide Owned, Budget, Bound, Awake, Strand;
    if Quitter(s.ws) {
      var i :| 0 <= i < |s.ws| && Quits(s.ws[i].pc);
      assert Stopper(s.ws[i].pc);
    } else {
      assert Leaving(s.ws[0]);
    }
  }

  // No worker is told to leave, or has left, while root lives.
  lemma NobodyLeavesBefore(s0: Sys, actions: seq<Action>, s: Sys, k: nat)
    requires Reaches(s0, actions, s) && s.Sys? && k < |s.ws| && (s.ws[k].term || s.ws[k].pc.Exited?)
    ensures StatusOf(s.services, ROOT) == Dead
  {
    hide Reaches, Owned, Control, Budget, Bound, Awake, Strand;
    ReachedIsGood(s0, actions, s);
    if s.ws[k].pc.Exited? { assert Stopper(s.ws[k].pc); }
  }

  // ------------------------------------------------------- it gets all round

  // What root's worker has still to do.
  function RoundLeft(pc: Pc, n: nat): nat {
    match pc
    case QuitAll(k) => n + 2 + (if k < n then n - k else 0)
    case WakeAll(k) => 1 + (if k < n then n - k else 0)
    case _ => 0
  }

  ghost predicate NoneLocked(ws: seq<Worker>) {
    forall k | 0 <= k < |ws| :: !ws[k].pc.Locked?
  }

  // Each step of root's worker is one step nearer, when it does not find a
  // worker's lock taken.
  lemma QuitterMoves(s: Sys, i: nat, e: Env)
    requires s.Sys? && i < |s.ws| && Quits(s.ws[i].pc)
    requires s.ws[i].pc.WakeAll? && s.ws[i].pc.k < |s.ws| ==> !s.ws[s.ws[i].pc.k].pc.Locked?
    ensures var t := WorkerStep(s, i, e);
      t.Sys? && |t.ws| == |s.ws| && RoundLeft(t.ws[i].pc, |s.ws|) == RoundLeft(s.ws[i].pc, |s.ws|) - 1
  {
  }

  lemma QuitterOwnsNothing(s: Sys, i: nat)
    requires s.Sys? && Control(s) && i < |s.ws| && (Quits(s.ws[i].pc) || s.ws[i].pc.Run?)
    ensures s.owner != i
  {
  }

  lemma StillNoneLocked(s: Sys, i: nat, e: Env)
    requires s.Sys? && i < |s.ws| && Quits(s.ws[i].pc) && NoneLocked(s.ws)
    ensures var t := WorkerStep(s, i, e); t.Sys? && NoneLocked(t.ws)
  {
    hide WorkerStep, Nudged;
    QuitsEffect(s, i, e);
    var t := WorkerStep(s, i, e);
    forall k | 0 <= k < |t.ws| ensures !t.ws[k].pc.Locked? { if k != i { assert t.ws[k].pc == s.ws[k].pc; } }
  }

  lemma {:induction false} GoesRound(s: Sys, i: nat, e: Env, n: nat)
    requires s.Sys? && Good(s) && i < |s.ws| && Quits(s.ws[i].pc) && NoneLocked(s.ws) && n == RoundLeft(s.ws[i].pc, |s.ws|)
    ensures var t := RunAll(s, seq(n, _ => Action(i, e)));
      t.Sys? && |t.ws| == |s.ws| && t.services == s.services && AllLeaving(t.ws) && t.ws[i].pc.Exited?
    decreases n
  {
    hide Good, Quits, NoneLocked, AllLeaving, RoundLeft;
    var a := Action(i, e);
    var t := Step(s, i, e);
    OneRound(s, i, e);
    assert seq(n, _ => a)[1..] == seq(n - 1, _ => a) && seq(n, _ => a)[0] == a;
    if Quits(t.ws[i].pc) {
      GoesRound(t, i, e, n - 1);
    } else {
      assert n - 1 == 0;
    }
  }

  lemma OneRound(s: Sys, i: nat, e: Env)
    requires s.Sys? && Good(s) && i < |s.ws| && Quits(s.ws[i].pc) && NoneLocked(s.ws)
    ensures var t := Step(s, i, e);
      && t.Sys? && Good(t) && |t.ws| == |s.ws| && t.services == s.services && NoneLocked(t.ws)
      && RoundLeft(t.ws[i].pc, |s.ws|) == RoundLeft(s.ws[i].pc, |s.ws|) - 1
      && (Quits(t.ws[i].pc) || (AllLeaving(t.ws) && t.ws[i].pc.Exited? && RoundLeft(t.ws[i].pc, |s.ws|) == 0))
  {
    hide Control, Owned, Budget, Bound, Awake, Strand, Traced, AllLeaving, WorkerStep, NoneLocked, StrayHead;
    QuitterOwnsNothing(s, i);
    assert Allowed(s, i, e);
    StepKeeps(s, i, e);
    if s.ws[i].pc.k < |s.ws| { IsUnlocked(s.ws, s.ws[i].pc.k); }
    QuitterMoves(s, i, e);
    QuitterStep(s, i, e);
    QuitsEffect(s, i, e);
    StillNoneLocked(s, i, e);
  }

  lemma IsUnlocked(ws: seq<Worker>, k: nat)
    requires NoneLocked(ws) && k < |ws|
    ensures !ws[k].pc.Locked?
  {
  }

  // From root's exit on, its worker, left alone while nobody is inside
  // worker_sleep's lock, sets every term_signal and wakes everybody: with
  // 2n + 3 steps of its own nobody of the n is, or ever again will be,
  // blocked.
  lemma QuitWakesAll(s0: Sys, actions: seq<Action>, s: Sys, i: nat, e: Env)
    requires Reaches(s0, actions, s) && s.Sys? && i < |s.ws| && s.ws[i].pc == SchedModel.Run(ROOT) && e.event.Exit?
    requires NoneLocked(s.ws)
    ensures var t := RunAll(s, seq(2 * |s.ws| + 3, _ => Action(i, e)));
      && t.Sys? && |t.ws| == |s.ws| && StatusOf(t.services, ROOT) == Dead && t.ws[i].pc.Exited?
      && forall k | 0 <= k < |t.ws| :: Leaving(t.ws[k])
  {
    hide Reaches, Good, RunAll, NoneLocked;
    ReachedIsGood(s0, actions, s);
    var n, a, t := 2 * |s.ws| + 2, Action(i, e), Step(s, i, e);
    RootsExit(s, i, e);
    GoesRound(t, i, e, n);
    RunsFirst(s, a, n);
  }

  lemma RunsFirst(s: Sys, a: Action, n: nat)
    ensures RunAll(s, seq(n + 1, _ => a)) == RunAll(Step(s, a.worker, a.env), seq(n, _ => a))
  {
    hide Step;
    assert seq(n + 1, _ => a)[1..] == seq(n, _ => a);
  }

  lemma RootsExit(s: Sys, i: nat, e: Env)
    requires s.Sys? && Good(s) && i < |s.ws| && s.ws[i].pc == SchedModel.Run(ROOT) && e.event.Exit? && NoneLocked(s.ws)
    ensures var t := Step(s, i, e);
      t.Sys? && Good(t) && |t.ws| == |s.ws| && t.ws[i].pc == QuitAll(0) && RootGone(t) && NoneLocked(t.ws)
  {
    hide Control, Owned, Budget, Bound, Awake, Strand, Traced, WorkerStep, StrayHead;
    QuitterOwnsNothing(s, i);
    assert Allowed(s, i, e);
    StepKeeps(s, i, e);
    RootDies(s, i, e);
    ExitQuits(s, i, e);
    Effect(s, i, e);
  }

  // ----------------------------------------------------- and everybody leaves

  // On its way to sleep, asleep, or back at the head of its loop.
  predicate BetweenJobs(pc: Pc) {
    pc.Top? || pc.Sleep? || pc.Lock? || pc.Locked? || pc.Waiting?
  }

  function WayOut(pc: Pc): nat {
    match pc
    case Top => 1
    case Lock => 3
    case Exited => 0
    case _ => 2
  }

  lemma OneStepOut(w: Worker, blocked: bool)
    requires Leaving(w) && BetweenJobs(w.pc)
    ensures var v := OwnStep(w, blocked);
      Leaving(v) && WayOut(v.pc) < WayOut(w.pc) && (BetweenJobs(v.pc) || v.pc.Exited?)
  {
  }

  lemma {:induction false} SleeperLeaves(s: Sys, k: nat, e: Env) returns (n: nat)
    requires s.Sys? && Good(s) && k < |s.ws| && Leaving(s.ws[k]) && BetweenJobs(s.ws[k].pc)
    ensures n <= WayOut(s.ws[k].pc)
    ensures var t := RunAll(s, seq(n, _ => Action(k, e))); t.Sys? && k < |t.ws| && t.ws[k].pc.Exited?
    decreases WayOut(s.ws[k].pc)
  {
    hide Control, Owned, Budget, Bound, Awake, Strand, Traced, Leaving, RunAll, StrayHead, OwnStep, BetweenJobs;
    var t, a := Step(s, k, e), Action(k, e);
    NotOwner(s, k);
    OneStepOut(s.ws[k], s.blocked);
    StepKeeps(s, k, e);
    if t.ws[k].pc.Exited? {
      n := 1;
      RunsFirst(s, a, 0);
      RunsNone(t, a);
    } else {
      var rest := SleeperLeaves(t, k, e);
      n := rest + 1;
      RunsFirst(s, a, rest);
    }
  }

  lemma RunsNone(s: Sys, a: Action)
    ensures RunAll(s, seq(0, _ => a)) == s
  {
  }

  lemma NotOwner(s: Sys, k: nat)
    requires s.Sys? && Control(s) && k < |s.ws| && BetweenJobs(s.ws[k].pc)
    ensures s.owner != k && OwnPc(s.ws[k].pc) && !s.ws[k].pc.Run?
  {
  }

  // A worker that has been told and woken is gone after three steps of its own
  // at most, if it was asleep, on its way to sleep or between two jobs.
  lemma ToldWorkerLeaves(s0: Sys, actions: seq<Action>, s: Sys, k: nat, e: Env) returns (n: nat)
    requires Reaches(s0, actions, s) && s.Sys? && k < |s.ws| && Leaving(s.ws[k]) && BetweenJobs(s.ws[k].pc)
    ensures n <= 3
    ensures var t := RunAll(s, seq(n, _ => Action(k, e))); t.Sys? && k < |t.ws| && t.ws[k].pc.Exited?
  {
    hide Reaches, Good, RunAll, Leaving;
    ReachedIsGood(s0, actions, s);
    n := SleeperLeaves(s, k, e);
  }
}
