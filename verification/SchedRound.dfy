// A whole round of the scheduler: it comes to an end, and if the workers keep
// still meanwhile it leaves no service waiting beside a worker with nothing
// to do.
module SchedRound {
  import opened SchedModel
  import opened SchedOwner
  import opened SchedDispatch
  import opened SchedBudget
  import opened SchedTheorem

  // ----------------------------------------------------------- a round ends

  // What is left of a round: the step it is in, and how much of that step.
  function Left(k: nat, n: nat): nat {
    if k <= n then n - k else 0
  }

  function Rank(p: Phase, n: nat): (nat, nat) {
    match p
    case Collect(k, _) => (9, Left(k, n))
    case Route(jobs) => (8, 2 * |jobs| + 1)
    case Settle(jobs) => (8, 2 * |jobs|)
    case Pending(k, _, _) => (7, 2 * Left(k, n) + 1)
    case PendingCas(k, _, _, _) => (7, if k < n then 2 * Left(k, n) else 2)
    case Count(k, _, _, _) => (6, 2 * Left(k, n) + 1)
    case CountWake(k, _, _, _) => (6, 2 * Left(k, n))
    case Prepare(left, _) => (5, 2 * left)
    case PrepareWake(_, left, _) => (5, 2 * left + 1)
    case Assign(_, _, _, _) => (4, SweepsLeft(p, n))
    case AssignWake(_, _, _, _) => (4, SweepsLeft(p, n))
    case Trigger => (3, 0)
    case HasJob => (2, 0)
    case OwnSteal(k) => (1, 2 * Left(k, n) + 3)
    case OwnCas(k, _) => (1, if k < n then 2 * Left(k, n) + 2 else 4)
    case OwnStore(_) => (1, 1)
    case Release(_) => (1, 0)
    case Off => (0, 0)
  }

  predicate Less(a: (nat, nat), b: (nat, nat)) {
    a.0 < b.0 || (a.0 == b.0 && a.1 < b.1)
  }

  // The scheduler waits for the lock of a worker that is about to sleep.
  predicate Waits(s: Sys)
    requires s.Sys?
  {
    (s.phase.CountWake? || s.phase.PrepareWake? || s.phase.AssignWake?) && s.phase.k < |s.ws| && s.ws[s.phase.k].pc.Locked?
  }

  lemma CountRank(s: Sys, e: Env)
    requires s.Sys? && Budget(s) && (s.phase.Count? || s.phase.CountWake?) && !Waits(s) && 0 <= s.owner < |s.ws|
    requires SchedulerStep(s, e).Sys?
    ensures Less(Rank(SchedulerStep(s, e).phase, |s.ws|), Rank(s.phase, |s.ws|))
  {
  }

  lemma PrepareRank(s: Sys, e: Env)
    requires s.Sys? && Budget(s) && (s.phase.Prepare? || s.phase.PrepareWake?) && !Waits(s) && 0 <= s.owner < |s.ws|
    requires SchedulerStep(s, e).Sys?
    ensures Less(Rank(SchedulerStep(s, e).phase, |s.ws|), Rank(s.phase, |s.ws|))
  {
  }

  lemma AssignRank(s: Sys, e: Env)
    requires s.Sys? && Budget(s) && (s.phase.Assign? || s.phase.AssignWake?) && !Waits(s) && 0 <= s.owner < |s.ws|
    requires SchedulerStep(s, e).Sys?
    ensures Less(Rank(SchedulerStep(s, e).phase, |s.ws|), Rank(s.phase, |s.ws|))
  {
    hide Budget, SchedulerStep, SweepsLeft;
    BudgetRange(s);
    TryUsesUp(s, e);
  }

  lemma BudgetRange(s: Sys)
    requires s.Sys? && Budget(s)
    ensures s.phase.AssignWake? ==> s.phase.k < |s.ws|
  {
  }

  lemma EarlyRank(s: Sys, e: Env)
    requires s.Sys? && (s.phase.Collect? || s.phase.Pending? || s.phase.PendingCas?) && 0 <= s.owner < |s.ws|
    requires SchedulerStep(s, e).Sys?
    ensures Less(Rank(SchedulerStep(s, e).phase, |s.ws|), Rank(s.phase, |s.ws|))
  {
  }

  lemma RouteRank(s: Sys, e: Env)
    requires s.Sys? && (s.phase.Route? || s.phase.Settle?) && 0 <= s.owner < |s.ws| && SchedulerStep(s, e).Sys?
    ensures Less(Rank(SchedulerStep(s, e).phase, |s.ws|), Rank(s.phase, |s.ws|))
  {
  }

  lemma EndRank(s: Sys, e: Env)
    requires s.Sys? && (s.phase.Trigger? || s.phase.HasJob? || s.phase.Release?) && 0 <= s.owner < |s.ws|
    ensures SchedulerStep(s, e).Sys? && Less(Rank(SchedulerStep(s, e).phase, |s.ws|), Rank(s.phase, |s.ws|))
  {
  }

  lemma StealRank(s: Sys, e: Env)
    requires s.Sys? && (s.phase.OwnSteal? || s.phase.OwnCas? || s.phase.OwnStore?) && 0 <= s.owner < |s.ws|
    ensures SchedulerStep(s, e).Sys? && Less(Rank(SchedulerStep(s, e).phase, |s.ws|), Rank(s.phase, |s.ws|))
  {
    hide BindingOf, SweepsLeft;
    match s.phase {
      case OwnSteal(k) => StealPhase(s, k);
      case OwnCas(k, job) => CasPhase(s, k, job, e.fail);
      case OwnStore(_) =>
    }
  }

  lemma StealPhase(s: Sys, k: nat)
    requires s.Sys?
    ensures var t := OwnStealStep(s, k);
      t.Sys? && (t.phase == Release(true) || (k < |s.ws| && ((t.phase.OwnCas? && t.phase.k == k) || t.phase == OwnSteal(k + 1))))
  {
  }

  lemma CasPhase(s: Sys, k: nat, job: nat, fail: bool)
    requires s.Sys?
    ensures var t := OwnCasStep(s, k, job, fail); t.Sys? && (t.phase == OwnStore(job) || t.phase == OwnSteal(k + 1))
  {
  }

  lemma RankFalls(s: Sys, e: Env)
    requires s.Sys? && Budget(s) && s.phase != Off && !Waits(s) && 0 <= s.owner < |s.ws| && SchedulerStep(s, e).Sys?
    ensures Less(Rank(SchedulerStep(s, e).phase, |s.ws|), Rank(s.phase, |s.ws|))
  {
    hide Budget, SchedulerStep, Rank;
    if s.phase.Count? || s.phase.CountWake? {
      CountRank(s, e);
    } else if s.phase.Prepare? || s.phase.PrepareWake? {
      PrepareRank(s, e);
    } else if s.phase.Assign? || s.phase.AssignWake? {
      AssignRank(s, e);
    } else if s.phase.Route? || s.phase.Settle? {
      RouteRank(s, e);
    } else if s.phase.Trigger? || s.phase.HasJob? || s.phase.Release? {
      EndRank(s, e);
    } else if TailPhase(s.phase) {
      StealRank(s, e);
    } else {
      EarlyRank(s, e);
    }
  }

  // Every step of the owner brings the round nearer to its end, whatever the
  // workers do in between, unless it waits for a lock held for one test.
  lemma RoundEnds(s0: Sys, actions: seq<Action>, s: Sys, e: Env)
    requires Reaches(s0, actions, s) && s.Sys? && s.phase != Off && !Waits(s)
    ensures 0 <= s.owner < |s.ws|
    ensures SchedulerStep(s, e).Sys? ==> Less(Rank(SchedulerStep(s, e).phase, |s.ws|), Rank(s.phase, |s.ws|))
  {
    hide Reaches, Owned, Control, SchedulerStep, Rank;
    ReachedIsGood(s0, actions, s);
    Facts2(s);
    if SchedulerStep(s, e).Sys? { RankFalls(s, e); }
  }

  // ------------------------------------------------- what becomes of the slots

  // The first n workers have a job or nothing in their binding queue.
  ghost predicate Fed(ws: seq<Worker>, n: nat) {
    forall j | 0 <= j < n && j < |ws| :: ws[j].ready != 0 || ws[j].queue == []
  }

  // The service at the head of the queue is bound, and step 5 takes it.
  predicate TakesBound(s: Sys)
    requires s.Sys?
  {
    s.phase.Prepare? && s.phase.left > 0 && s.schedule != [] && BindingOf(s.services, s.schedule[0]) >= 0
  }

  // ... and its worker begins it at once.
  predicate BeginsIt(s: Sys)
    requires s.Sys? && TakesBound(s)
  {
    var b := BindingOf(s.services, s.schedule[0]);
    b < |s.ws| && s.ws[b].ready == 0 && |s.ws[b].queue| < BINDING_SERVICE_QUEUE
  }

  // A bound service is counted against the free slots although it takes none,
  // and twice when it takes one; only the last slot cannot be counted twice.
  function Waste(s: Sys): nat
    requires s.Sys?
  {
    if !TakesBound(s) || (s.phase.left == 1 && BeginsIt(s)) then 0 else 1
  }

  // The counts of steps 4 to 6 are exact while the workers keep still, but for
  // the slots wasted so far.
  ghost predicate Exact(s: Sys, wasted: nat)
    requires s.Sys?
  {
    match s.phase
    case Count(k, free, _, _) => k <= |s.ws| && free == EmptiesBefore(s.ws, k) && Fed(s.ws, k) && wasted == 0
    case CountWake(k, free, _, _) =>
      k < |s.ws| && free == EmptiesBefore(s.ws, k) && Fed(s.ws, k) && s.ws[k].ready != 0 && wasted == 0
    case Prepare(left, prep) => Fed(s.ws, |s.ws|) && left + |prep| + wasted == Empties(s.ws, 0)
    case PrepareWake(k, left, prep) => k < |s.ws| && Fed(s.ws, |s.ws|) && left + |prep| + wasted == Empties(s.ws, 0)
    case Assign(_, _, _, prep) => Fed(s.ws, |s.ws|) && (s.schedule == [] || |prep| + wasted == Empties(s.ws, 0))
    case AssignWake(k, _, _, prep) =>
      k < |s.ws| && Fed(s.ws, |s.ws|) && (s.schedule == [] || |prep| + wasted == Empties(s.ws, 0))
    case Trigger => Fed(s.ws, |s.ws|) && (s.schedule == [] || wasted == Empties(s.ws, 0))
    case _ => false
  }

  predicate Middle(p: Phase) {
    p.Count? || p.CountWake? || p.Prepare? || p.PrepareWake? || p.Assign? || p.AssignWake?
  }

  lemma CountExact(s: Sys, e: Env)
    requires s.Sys? && Control(s) && Owned(s) && Exact(s, 0) && s.phase.Count? && 0 <= s.owner < |s.ws|
    requires SchedulerStep(s, e).Sys?
    ensures Exact(SchedulerStep(s, e), 0)
  {
    hide Control, Owned, Empties;
    var k := s.phase.k;
    if k == |s.ws| {
      AllBefore(s.ws);
    } else if s.ws[k].ready == 0 && s.ws[k].queue != [] {
      NotNull(s, k);
      EmptiesBeforeFill(s.ws, k, TakeBound(s.ws[k]), k);
    }
  }

  lemma CountWakeExact(s: Sys, e: Env)
    requires s.Sys? && Exact(s, 0) && s.phase.CountWake? && 0 <= s.owner < |s.ws| && !s.ws[s.phase.k].pc.Locked?
    ensures SchedulerStep(s, e).Sys? && Exact(SchedulerStep(s, e), 0)
  {
    EmptiesBeforeFill(s.ws, s.phase.k, Wake(s.ws[s.phase.k]), s.phase.k);
  }

  lemma PrepareExact(s: Sys, e: Env, wasted: nat)
    requires s.Sys? && Control(s) && Owned(s) && Exact(s, wasted) && s.phase.Prepare? && 0 <= s.owner < |s.ws|
    requires SchedulerStep(s, e).Sys?
    ensures Exact(SchedulerStep(s, e), wasted + Waste(s))
  {
    hide Control, Owned, Empties;
    if TakesBound(s) { BoundExact(s, e, wasted); }
  }

  lemma BoundExact(s: Sys, e: Env, wasted: nat)
    requires s.Sys? && Control(s) && Owned(s) && Exact(s, wasted) && TakesBound(s) && 0 <= s.owner < |s.ws|
    requires SchedulerStep(s, e).Sys?
    ensures Exact(SchedulerStep(s, e), wasted + Waste(s))
  {
    hide Control, Owned, Empties;
    var job := s.schedule[0];
    var b := BindingOf(s.services, job);
    QueuedIsOwned(s, job);
    Facts2(s);
    if |s.ws[b].queue| < BINDING_SERVICE_QUEUE {
      var w := s.ws[b].(queue := s.ws[b].queue + [job]);
      var v := if w.ready != 0 then w else TakeBound(w);
      EmptiesFill(s.ws, b, v, 0);
      assert SchedulerStep(s, e).ws == s.ws[b := v];
    }
  }

  lemma AssignExact(s: Sys, e: Env, wasted: nat)
    requires s.Sys? && Control(s) && Owned(s) && Exact(s, wasted) && s.phase.Assign? && 0 <= s.owner < |s.ws|
    requires SchedulerStep(s, e).Sys?
    ensures Exact(SchedulerStep(s, e), wasted)
  {
    hide Control, Owned, Empties;
    PrepIsReal(s);
    var Assign(k, busy, bound, prep) := s.phase;
    if prep != [] && k < |s.ws| { assert prep[0] in prep; EmptiesFill(s.ws, k, s.ws[k].(ready := prep[0]), 0); }
  }

  lemma WakeExact(s: Sys, e: Env, wasted: nat)
    requires s.Sys? && Exact(s, wasted) && (s.phase.PrepareWake? || s.phase.AssignWake?) && 0 <= s.owner < |s.ws|
    requires !s.ws[s.phase.k].pc.Locked?
    ensures SchedulerStep(s, e).Sys? && Exact(SchedulerStep(s, e), wasted)
  {
    hide Empties;
    EmptiesFill(s.ws, s.phase.k, Wake(s.ws[s.phase.k]), 0);
  }

  ghost predicate Still(s: Sys, wasted: nat)
    requires s.Sys?
  {
    Good(s) && Exact(s, wasted) && forall j | 0 <= j < |s.ws| :: !s.ws[j].pc.Locked?
  }

  lemma PrepIsReal(s: Sys)
    requires s.Sys? && Control(s) && Owned(s) && s.phase.Assign?
    ensures forall x | x in s.phase.prep :: x != 0
  {
    hide Owned, Control;
    Facts2(s);
    forall x | x in s.phase.prep ensures x != 0 { LocalIsOwned(s, x); }
  }

  lemma MiddleKeepsPcs(s: Sys, e: Env)
    requires s.Sys? && Middle(s.phase) && 0 <= s.owner < |s.ws| && SchedulerStep(s, e).Sys?
    ensures var t := SchedulerStep(s, e);
      t.owner == s.owner && |t.ws| == |s.ws| && forall j | 0 <= j < |s.ws| :: t.ws[j].pc == s.ws[j].pc
  {
    if s.phase.Prepare? && s.phase.left > 0 && s.schedule != [] {
      var b := BindingOf(s.services, s.schedule[0]);
      if 0 <= b < |s.ws| { assert SchedulerStep(s, e).owner == s.owner; }
    }
  }

  lemma StillStep(s: Sys, e: Env, wasted: nat)
    requires s.Sys? && Still(s, wasted) && Middle(s.phase) && Step(s, s.owner, e).Sys?
    ensures 0 <= s.owner < |s.ws| && Step(s, s.owner, e).owner == s.owner
    ensures Still(Step(s, s.owner, e), wasted + Waste(s))
  {
    hide Good, SchedulerStep;
    GoodParts(s);
    Facts2(s);
    StepKeeps(s, s.owner, e);
    MiddleKeepsPcs(s, e);
    match s.phase {
      case Count(_, _, _, _) => CountExact(s, e);
      case CountWake(_, _, _, _) => CountWakeExact(s, e);
      case Prepare(_, _) => PrepareExact(s, e, wasted);
      case Assign(_, _, _, _) => AssignExact(s, e, wasted);
      case _ => WakeExact(s, e, wasted);
    }
  }

  lemma GoodParts(s: Sys)
    requires s.Sys? && Good(s)
    ensures Control(s) && Owned(s)
  {
  }

  // The owner alone goes on until step 6 is done.
  function Alone(s: Sys, es: seq<Env>): Sys
    decreases |es|
  {
    if es == [] || !s.Sys? || s.phase == Trigger || s.owner < 0 then s else Alone(Step(s, s.owner, es[0]), es[1..])
  }

  // The slots wasted on the way.
  function Wasted(s: Sys, es: seq<Env>): nat
    decreases |es|
  {
    if es == [] || !s.Sys? || s.phase == Trigger || s.owner < 0 then 0
    else Waste(s) + Wasted(Step(s, s.owner, es[0]), es[1..])
  }

  lemma {:induction false} AloneIsExact(s: Sys, es: seq<Env>, wasted: nat)
    requires s.Sys? && Still(s, wasted) && (Middle(s.phase) || s.phase == Trigger)
    ensures var t := Alone(s, es); t.Sys? ==> Still(t, wasted + Wasted(s, es))
    decreases |es|
  {
    hide Step, Still, Waste;
    if es != [] && s.phase != Trigger {
      OwnerThere(s, wasted);
      var t := Step(s, s.owner, es[0]);
      if t.Sys? {
        StillStep(s, es[0], wasted);
        NextMiddle(t, wasted + Waste(s));
        AloneIsExact(t, es[1..], wasted + Waste(s));
      }
    }
  }

  lemma OwnerThere(s: Sys, wasted: nat)
    requires s.Sys? && Still(s, wasted)
    ensures 0 <= s.owner < |s.ws|
  {
    hide Good;
    GoodParts(s);
    Facts2(s);
  }

  lemma NextMiddle(s: Sys, wasted: nat)
    requires s.Sys? && Still(s, wasted)
    ensures Middle(s.phase) || s.phase == Trigger
  {
    hide Good;
  }

  lemma {:induction false} NoneEmpty(ws: seq<Worker>, k: nat)
    requires k <= |ws|
    ensures Empties(ws, k) == 0 <==> forall j | k <= j < |ws| :: !Empty(ws[j])
    decreases |ws| - k
  {
    if k < |ws| { NoneEmpty(ws, k + 1); }
  }

  // With the workers keeping still from step 4 to step 6, and services left in
  // the schedule queue, as many workers end without a job as slots were wasted
  // on bound services; so every worker has a job if and only if none was.
  lemma SlotsAccounted(s: Sys, jobs: seq<nat>, from: seq<nat>, es: seq<Env>)
    requires s.Sys? && Good(s) && s.phase == Count(0, 0, jobs, from)
    requires forall j | 0 <= j < |s.ws| :: !s.ws[j].pc.Locked?
    ensures var t := Alone(s, es);
      t.Sys? && t.phase == Trigger && t.schedule != [] ==>
        && Empties(t.ws, 0) == Wasted(s, es)
        && ((forall k | 0 <= k < |t.ws| :: t.ws[k].ready != 0) <==> Wasted(s, es) == 0)
  {
    hide Good;
    AloneIsExact(s, es, 0);
    var t := Alone(s, es);
    if t.Sys? && t.phase == Trigger && t.schedule != [] { NoneEmpty(t.ws, 0); }
  }

  // ------------------------------------------------- a worker without a job

  // In step 5 of a round of worker 0's: service 7 is bound to worker 0, service
  // 5 is not bound, and both workers are free.
  function TwoFree(left: nat, q: seq<nat>, ready: nat): Sys {
    Sys([Worker(Serve(true), ready, 0, 0, [], false, false, ready != 0, false), Worker(Top, 0, 0, 0, [], false, false, false, false)],
        0, Prepare(left, []), q,
        map[1 := Service(Idle, false, Intact, -1), 5 := Service(SchedModel.Schedule, false, Intact, -1),
            7 := Service(SchedModel.Schedule, false, Intact, 0)],
        ready != 0, true, 8)
  }

  // A bound service costs two slots: 5 stays in the queue and worker 1 without
  // a job.
  lemma BoundServiceCostsTwo(e: Env)
    ensures var s := TwoFree(2, [7, 5], 0);
      && Waste(s) == 1
      && SchedulerStep(SchedulerStep(s, e), e) == TwoFree(0, [5], 7)
      && SchedulerStep(TwoFree(0, [5], 7), e).phase == Assign(0, false, false, [])
  {
    var s := TwoFree(2, [7, 5], 0);
    var w := s.ws[0].(queue := s.ws[0].queue + [7]);
    assert [7, 5][1..] == [5] && w.queue == [7] && [7][1..] == [];
    assert TakeBound(w) == s.ws[0].(ready := 7);
    assert BindingOf(s.services, 7) == 0;
    var t := s.(ws := s.ws[0 := s.ws[0].(ready := 7)], phase := PrepareWake(0, 0, []), schedule := [5], blocked := true);
    assert SchedulerStep(s, e) == t;
    assert t.ws[0 := Wake(t.ws[0])] == TwoFree(0, [5], 7).ws;
  }
}
