// The assertion of step 2 that a dead service has a signal for root fails in
// some continuation of a run if and only if the run reported a death to root
// while root's mailbox was full.
module SchedLost {
  import opened SchedModel
  import opened SchedOwner
  import opened SchedDispatch
  import opened SchedEffect
  import opened SchedBudget
  import opened SchedStrand
  import opened SchedStray
  import opened SchedTheorem
  import opened SchedDrain
  import opened SchedRuns

  // Some step of the run finds root's mailbox full, with a death to report.
  predicate DropsIn(s: Sys, actions: seq<Action>)
    decreases |actions|
  {
    actions != [] &&
    (Drops(s, actions[0].worker, actions[0].env) ||
     DropsIn(Step(s, actions[0].worker, actions[0].env), actions[1..]))
  }

  lemma StepStrays(s: Sys, i: nat, e: Env)
    requires s.Sys? && Good(s) && Allowed(s, i, e)
    ensures Step(s, i, e).Sys? ==> (HasStray(Step(s, i, e).services) <==> HasStray(s.services) || Drops(s, i, e))
    ensures Step(s, i, e).Broken? ==> HasStray(s.services)
  {
    hide Control, Owned, Budget, Strand, Traced, WorkerStep, SchedulerStep, Allowed, HasStray;
    StepKeeps(s, i, e);
    if Step(s, i, e).Broken? {
      IsStray(s.services, s.phase.jobs[0]);
    } else if i < |s.ws| && Step(s, i, e).Sys? {
      AllowedCases(s, i, e);
      if s.phase != Off && s.owner == i { SchedulerStrays(s, e); } else { WorkerStrays(s, i, e); }
    }
  }

  lemma {:induction false} StrayRun(s: Sys, actions: seq<Action>)
    requires s.Sys? && Good(s) && AllAllowed(s, actions)
    ensures var t := RunAll(s, actions);
      && (t.Sys? ==> (HasStray(t.services) <==> HasStray(s.services) || DropsIn(s, actions)))
      && (t.Broken? ==> HasStray(s.services) || DropsIn(s, actions))
    decreases |actions|
  {
    hide Good, Step, Allowed, HasStray, Drops;
    if actions != [] {
      var a := actions[0];
      var t := Step(s, a.worker, a.env);
      StepKeeps(s, a.worker, a.env);
      StepStrays(s, a.worker, a.env);
      if t.Sys? { StrayRun(t, actions[1..]); } else { FailedRun(t, actions[1..]); }
    }
  }

  lemma StartHasNoStray(s: Sys)
    requires Start(s)
    ensures !HasStray(s.services)
  {
  }

  // Over all runs: the status assertions of the workers and of step 2, the
  // assertion that the schedule queue has room and the one in step 6 fail in
  // no run but one that has found root's mailbox full.
  lemma NeverBroken(s0: Sys, actions: seq<Action>, s: Sys)
    requires Reaches(s0, actions, s) && !DropsIn(s0, actions)
    ensures !s.Broken?
  {
    StartGood(s0);
    StartHasNoStray(s0);
    hide Good, Start, DropsIn, HasStray;
    StrayRun(s0, actions);
  }

  // A lost signal leaves its trace for good.
  lemma StrayIffDropped(s0: Sys, actions: seq<Action>, s: Sys)
    requires Reaches(s0, actions, s) && s.Sys?
    ensures HasStray(s.services) <==> DropsIn(s0, actions)
  {
    StartGood(s0);
    StartHasNoStray(s0);
    hide Good, Start, DropsIn, HasStray;
    StrayRun(s0, actions);
  }

  // ------------------------------------------------------- the exact condition

  lemma {:induction false} UnblockedDropsNothing(s: Sys, actions: seq<Action>)
    requires Unblocked(actions)
    ensures !DropsIn(s, actions)
    decreases |actions|
  {
    if actions != [] {
      assert actions[0] in actions && forall a | a in actions[1..] :: a in actions;
      UnblockedDropsNothing(Step(s, actions[0].worker, actions[0].env), actions[1..]);
    }
  }

  // The assertion fails at the end of some run from s that finds root's
  // mailbox never full.
  ghost predicate MayBreak(s: Sys) {
    exists more :: AllAllowed(s, more) && !DropsIn(s, more) && RunAll(s, more).Broken?
  }

  lemma CanBreak(s: Sys, more: seq<Action>)
    requires AllAllowed(s, more) && !DropsIn(s, more) && RunAll(s, more).Broken?
    ensures MayBreak(s)
  {
  }

  // Whatever was reached, as long as root has not quit and step 3 has stolen
  // nothing: the assertion is going to fail, in some continuation that has no
  // further part in it, if and only if the run before has found root's mailbox
  // full with a death to report.
  lemma BreaksIffDropped(s0: Sys, actions: seq<Action>, s: Sys)
    requires Reaches(s0, actions, s) && s.Sys? && !Stopping(s.ws) && EmptyHanded(s.phase)
    ensures MayBreak(s) <==> DropsIn(s0, actions)
  {
    StrayIffDropped(s0, actions, s);
    ReachedIsGood(s0, actions, s);
    hide Good, Reaches, DropsIn, HasStray, Stopping, MayBreak, AllAllowed, RunAll;
    if DropsIn(s0, actions) {
      var more := Drain(s);
      UnblockedDropsNothing(s, more);
      CanBreak(s, more);
    } else if MayBreak(s) {
      BreaksByStray(s);
    }
  }

  lemma BreaksByStray(s: Sys)
    requires s.Sys? && Good(s) && MayBreak(s)
    ensures HasStray(s.services)
  {
    hide Good, HasStray, AllAllowed, RunAll, DropsIn;
    var more :| AllAllowed(s, more) && !DropsIn(s, more) && RunAll(s, more).Broken?;
    StrayRun(s, more);
  }

  lemma {:induction false} DropsConcat(s: Sys, xs: seq<Action>, a: Action)
    requires AllAllowed(s, xs) && Allowed(RunAll(s, xs), a.worker, a.env)
    ensures RunAll(s, xs + [a]) == Step(RunAll(s, xs), a.worker, a.env) && AllAllowed(s, xs + [a])
    ensures DropsIn(s, xs + [a]) <==> DropsIn(s, xs) || Drops(RunAll(s, xs), a.worker, a.env)
    decreases |xs|
  {
    hide Step, Allowed, Drops;
    if xs == [] {
      assert xs + [a] == [a] && [a][1..] == [];
    } else {
      assert (xs + [a])[0] == xs[0] && (xs + [a])[1..] == xs[1..] + [a];
      DropsConcat(Step(s, xs[0].worker, xs[0].env), xs[1..], a);
    }
  }

  // The report of a death is about to be made to a living root.
  predicate Reports(s: Sys) {
    && s.Sys? && 0 <= s.owner < |s.ws| && s.phase.Route? && s.phase.jobs != []
    && StatusOf(s.services, s.phase.jobs[0]) == Dead && StatusOf(s.services, ROOT) != Dead
  }

  lemma ReportStep(s: Sys, e: Env)
    requires Reports(s) && Good(s) && !HasStray(s.services) && Allowed(s, s.owner, e)
    ensures Drops(s, s.owner, e) <==> e.flag
    ensures var t := Step(s, s.owner, e); t.Sys? && !Stopping(t.ws) && EmptyHanded(t.phase)
  {
    hide Control, Owned, Budget, SchedBound.Bound, SchedWake.Awake, Strand, HasStray, Stopping;
    Facts2(s);
    RoutedHead(s);
    if StrayHead(s) { IsStray(s.services, s.phase.jobs[0]); }
    StepKeeps(s, s.owner, e);
    AllowedCases(s, s.owner, e);
    NoNewStopper(s, e);
  }

  // In a run that has reported every death so far, the next report leads to
  // the failed assertion if and only if it finds root's mailbox full.
  lemma ReportBreaksIffBlocked(s0: Sys, actions: seq<Action>, s: Sys, e: Env)
    requires Reaches(s0, actions, s) && Reports(s) && !DropsIn(s0, actions) && Allowed(s, s.owner, e)
    ensures MayBreak(Step(s, s.owner, e)) <==> e.flag
  {
    StrayIffDropped(s0, actions, s);
    ReachedIsGood(s0, actions, s);
    hide Good, Start, DropsIn, HasStray, Stopping, MayBreak, AllAllowed, RunAll, Step, Allowed, Drops;
    ReportStep(s, e);
    var a := Action(s.owner, e);
    DropsConcat(s0, actions, a);
    BreaksIffDropped(s0, actions + [a], Step(s, s.owner, e));
  }

  // --------------------------------------------------------- a run that breaks

  // One worker, root idle, and a service that waits to run.
  const PAIR: Services := map[1 := Service(Idle, false, Intact, -1), 2 := Service(Schedule, false, Intact, -1)]
  const ALONE := Sys([NEW], NONE, Off, [2], PAIR, false, false, 8)

  function Dying(status: Status, signal: bool): Services {
    map[1 := Service(Idle, false, Intact, -1), 2 := Service(status, signal, Intact, -1)]
  }

  function Single(w: Worker, owner: int, phase: Phase, q: seq<nat>, m: Services): Sys {
    Sys([w], owner, phase, q, m, false, true, 8)
  }

  lemma AloneIsStart()
    ensures Start(ALONE)
  {
    assert PAIR.Keys == {1, 2} && |PAIR| == |PAIR.Keys|;
  }

  // The first round gives the service to the worker.
  lemma GetsJob() returns (run: seq<Action>, t: Sys)
    ensures Leads(ALONE, run, t)
    ensures t == Single(NEW.(ready := 2, wakeup := true), NONE, Off, [], PAIR)
  {
    hide Leads, PAIR;
    var u, more;
    run, t := Enter(ALONE, 0);
    more, u := Front(t);
    Join(ALONE, run, t, more, u);
    run := run + more;
    assert u.ws == [NEW.(pc := Serve(true))];
    assert Empties(u.ws, 1) == 0 && Empties(u.ws, 0) == 1;
    more, t := CountSweep(u);
    Join(ALONE, run, u, more, t);
    run := run + more;
    run, u := PreparesIt(run, t);
    more, t := Give(u);
    Join(ALONE, run, u, more, t);
    run := run + more;
    more, u := Ends(t, false);
    Join(ALONE, run, t, more, u);
    run := run + more;
    more, t := Again(u, 0);
    Join(ALONE, run, u, more, t);
    run := run + more;
    assert t.ws == [NEW.(ready := 2, wakeup := true)];
  }

  lemma PreparesIt(before: seq<Action>, s: Sys) returns (run: seq<Action>, t: Sys)
    requires Leads(ALONE, before, s) && s == Single(NEW.(pc := Serve(true)), 0, Prepare(1, []), [2], PAIR)
    ensures t == Single(NEW.(pc := Serve(true)), 0, Assign(0, false, false, [2]), [], PAIR) && Leads(ALONE, run, t)
  {
    hide Leads;
    assert [2][1..] == [] && [] + [2] == [2];
    var u := Single(NEW.(pc := Serve(true)), 0, Prepare(0, [2]), [], PAIR);
    run := Do(ALONE, before, s, 0, PLAIN, u);
    t := Single(NEW.(pc := Serve(true)), 0, Assign(0, false, false, [2]), [], PAIR);
    run := Do(ALONE, run, u, 0, PLAIN, t);
  }

  const EXIT := Env(false, false, NoMessage, Exit)

  // The service runs, ...
  lemma RunsIt() returns (run: seq<Action>, t: Sys)
    ensures Leads(ALONE, run, t)
    ensures t == Single(NEW.(wakeup := true, pc := SchedModel.Run(2)), NONE, Off, [], Dying(Running, false))
  {
    hide Leads;
    var s, more;
    run, t := GetsJob();
    more, s := Take(t, 0);
    Join(ALONE, run, t, more, s);
    run := run + more;
    more, t := Begins(s, 0);
    Join(ALONE, run, s, more, t);
    run := run + more;
    assert t.ws == [NEW.(wakeup := true, pc := SchedModel.Run(2))];
  }

  // ... quits, and the next round is about to report it.
  lemma Dies() returns (run: seq<Action>, s: Sys)
    ensures Leads(ALONE, run, s) && Reports(s) && !HasStray(s.services)
  {
    hide Leads, Dying, Reports, HasStray, BindingOf;
    var t, more;
    run, t := RunsIt();
    s := Single(NEW.(wakeup := true, pc := After(2, true)), NONE, Off, [], Dying(Dead, true));
    Quitting2(t, s);
    run := Do(ALONE, run, t, 0, EXIT, s);
    more, t := Publishes(s, 0);
    Join(ALONE, run, s, more, t);
    run := run + more;
    more, s := Enter(t, 0);
    Join(ALONE, run, t, more, s);
    run := run + more;
    more, t := CollectOwn(s);
    Join(ALONE, run, s, more, t);
    run := run + more;
    s := t;
    DyingReports(s);
  }

  lemma DyingReports(s: Sys)
    requires s.Sys? && s.owner == 0 && |s.ws| == 1 && s.phase == Route([2]) && s.services == Dying(Dead, true)
    ensures Reports(s) && !HasStray(s.services)
  {
  }

  lemma Quitting2(t: Sys, s: Sys)
    requires t == Single(NEW.(wakeup := true, pc := SchedModel.Run(2)), NONE, Off, [], Dying(Running, false))
    requires s == Single(NEW.(wakeup := true, pc := After(2, true)), NONE, Off, [], Dying(Dead, true))
    ensures Step(t, 0, EXIT) == s && Honest(t, 0, EXIT)
  {
    assert t.ws[0 := s.ws[0]] == s.ws;
    assert Dying(Running, false)[2 := Service(Dead, false, Intact, -1)][2 := Service(Dead, true, Intact, -1)] == Dying(Dead, true);
  }

  lemma ReportAllowed(s: Sys)
    requires Reports(s)
    ensures Allowed(s, s.owner, FLAGGED)
  {
  }

  // A whole run, from a start of two services and one worker, that ends in the
  // failed assertion; root's mailbox is full once, when the death is reported.
  lemma SomeRunBreaks() returns (actions: seq<Action>)
    ensures Start(ALONE) && AllAllowed(ALONE, actions) && RunAll(ALONE, actions).Broken?
  {
    hide Start, AllAllowed, RunAll, DropsIn, Step, Allowed, AllHonest, HasStray, PAIR;
    AloneIsStart();
    var s;
    actions, s := Dies();
    HonestIsAllowed(ALONE, actions);
    ReportAllowed(s);
    StrayIffDropped(ALONE, actions, s);
    ReportBreaksIffBlocked(ALONE, actions, s, FLAGGED);
    var a := Action(s.owner, FLAGGED);
    DropsConcat(ALONE, actions, a);
    var t := Step(s, s.owner, FLAGGED);
    var more :| AllAllowed(t, more) && !DropsIn(t, more) && RunAll(t, more).Broken?;
    RunConcat(ALONE, actions + [a], more);
    actions := actions + [a] + more;
  }
}
