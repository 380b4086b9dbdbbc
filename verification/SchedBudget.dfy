// The assignment budget: step 5 never prepares more services than there are
// workers that can still take one, so step 6 places all of them within three
// sweeps, whatever the workers do meanwhile.
module SchedBudget {
  import opened SchedModel
  import opened SchedOwner
  import opened SchedDispatch
  import opened SchedEffect

  // A worker that can take an unbound service.
  predicate Empty(w: Worker) {
    w.ready == 0 && w.queue == []
  }

  // How many of the workers from k on can.
  function Empties(ws: seq<Worker>, k: nat): nat
    requires k <= |ws|
    decreases |ws| - k
  {
    if k == |ws| then 0 else If(Empty(ws[k])) + Empties(ws, k + 1)
  }

  // ... and before k.
  function EmptiesBefore(ws: seq<Worker>, k: nat): nat
    requires k <= |ws|
  {
    if k == 0 then 0 else EmptiesBefore(ws, k - 1) + If(Empty(ws[k - 1]))
  }

  lemma {:induction false} Split(ws: seq<Worker>, k: nat)
    requires k <= |ws|
    ensures EmptiesBefore(ws, k) + Empties(ws, k) == Empties(ws, 0)
  {
    if k > 0 { Split(ws, k - 1); }
  }

  // What the local variables of steps 4 to 6 promise about the slots.
  ghost predicate Budget(s: Sys)
    requires s.Sys?
  {
    match s.phase
    case Count(k, free, _, _) => k <= |s.ws| && free <= EmptiesBefore(s.ws, k)
    case CountWake(k, free, _, _) => k < |s.ws| && free <= EmptiesBefore(s.ws, k)
    case Prepare(left, prep) => left + |prep| <= Empties(s.ws, 0)
    case PrepareWake(k, left, prep) => k < |s.ws| && left + |prep| <= Empties(s.ws, 0)
    case Assign(k, busy, bound, prep) => Enough(s.ws, k, busy, bound, prep)
    case AssignWake(k, busy, bound, prep) => k < |s.ws| && Enough(s.ws, k + 1, busy, bound, prep)
    case _ => true
  }

  // In the last sweep the empty slots are still ahead.
  ghost predicate Enough(ws: seq<Worker>, k: nat, busy: bool, bound: bool, prep: seq<nat>) {
    k <= |ws| && (bound ==> busy) && |prep| <= Empties(ws, if bound then k else 0)
  }

  // Workers may empty slots at any time, and do nothing else to them.
  ghost predicate OnlyEmptied(ws: seq<Worker>, vs: seq<Worker>) {
    |vs| == |ws| && forall j | 0 <= j < |ws| :: Empty(ws[j]) ==> Empty(vs[j])
  }

  lemma {:induction false} EmptiesGrow(ws: seq<Worker>, vs: seq<Worker>, k: nat)
    requires OnlyEmptied(ws, vs) && k <= |ws|
    ensures Empties(ws, k) <= Empties(vs, k)
    decreases |ws| - k
  {
    if k < |ws| { EmptiesGrow(ws, vs, k + 1); }
  }

  lemma {:induction false} EmptiesBeforeGrow(ws: seq<Worker>, vs: seq<Worker>, k: nat)
    requires OnlyEmptied(ws, vs) && k <= |ws|
    ensures EmptiesBefore(ws, k) <= EmptiesBefore(vs, k)
  {
    if k > 0 { EmptiesBeforeGrow(ws, vs, k - 1); }
  }

  // Filling slot i costs at most one, and nothing outside the range.
  lemma {:induction false} EmptiesFill(ws: seq<Worker>, i: nat, w: Worker, k: nat)
    requires i < |ws| && k <= |ws|
    ensures Empties(ws[i := w], k) + If(k <= i && Empty(ws[i])) == Empties(ws, k) + If(k <= i && Empty(w))
    decreases |ws| - k
  {
    if k < |ws| { EmptiesFill(ws, i, w, k + 1); }
  }

  lemma {:induction false} EmptiesBeforeFill(ws: seq<Worker>, i: nat, w: Worker, k: nat)
    requires i < |ws| && k <= i
    ensures EmptiesBefore(ws[i := w], k) == EmptiesBefore(ws, k)
  {
    if k > 0 { EmptiesBeforeFill(ws, i, w, k - 1); }
  }

  lemma BudgetOfWorkers(s: Sys, t: Sys)
    requires s.Sys? && t.Sys? && Budget(s) && t.phase == s.phase && OnlyEmptied(s.ws, t.ws)
    ensures Budget(t)
  {
    match s.phase {
      case Count(k, _, _, _) => EmptiesBeforeGrow(s.ws, t.ws, k);
      case CountWake(k, _, _, _) => EmptiesBeforeGrow(s.ws, t.ws, k);
      case Prepare(_, _) => EmptiesGrow(s.ws, t.ws, 0);
      case PrepareWake(_, _, _) => EmptiesGrow(s.ws, t.ws, 0);
      case Assign(k, _, bound, _) => EmptiesGrow(s.ws, t.ws, if bound then k else 0);
      case AssignWake(k, _, bound, _) => EmptiesGrow(s.ws, t.ws, if bound then k + 1 else 0);
      case _ =>
    }
  }

  lemma WorkerBudget(s: Sys, i: nat, e: Env)
    requires s.Sys? && i < |s.ws| && Control(s) && Budget(s) && (s.phase == Off || s.owner != i) &&
      WorkerStep(s, i, e).Sys?
    ensures Budget(WorkerStep(s, i, e))
  {
    hide Control, Budget, WorkerStep;
    var t := WorkerStep(s, i, e);
    if s.phase == Off {
      IdleEffect(s, i, e);
      NoBudget(t);
    } else {
      RoundKept(s, i, e);
      if Quits(s.ws[i].pc) {
        QuitsEmpty(s, i, e);
      } else {
        Effect(s, i, e);
        SlotsOf(s, i, e);
      }
      BudgetOfWorkers(s, t);
    }
  }

  lemma NoBudget(s: Sys)
    requires s.Sys? && (s.phase == Off || s.phase.Collect?)
    ensures Budget(s)
  {
  }

  lemma QuitsEmpty(s: Sys, i: nat, e: Env)
    requires s.Sys? && i < |s.ws| && Quits(s.ws[i].pc)
    ensures WorkerStep(s, i, e).Sys? && OnlyEmptied(s.ws, WorkerStep(s, i, e).ws)
  {
    hide WorkerStep;
    QuitsEffect(s, i, e);
  }

  // -------------------------------------------------------- scheduler's steps

  lemma AllBefore(ws: seq<Worker>)
    ensures EmptiesBefore(ws, |ws|) == Empties(ws, 0)
  {
    Split(ws, |ws|);
  }

  // count_freeslot counts no more than there are.
  lemma CountBudget(s: Sys, e: Env)
    requires s.Sys? && Budget(s) && (s.phase.Count? || s.phase.CountWake?) && 0 <= s.owner < |s.ws|
    requires SchedulerStep(s, e).Sys?
    ensures Budget(SchedulerStep(s, e))
  {
    var k := s.phase.k;
    if s.phase.Count? && k == |s.ws| {
      AllBefore(s.ws);
    } else if s.phase.Count? && s.ws[k].ready == 0 && s.ws[k].queue != [] {
      EmptiesBeforeFill(s.ws, k, TakeBound(s.ws[k]), k);
    } else if s.phase.CountWake? && !s.ws[k].pc.Locked? {
      EmptiesBeforeFill(s.ws, k, Wake(s.ws[k]), k);
    }
  }

  // prepare_task: each round prepares one service or uses up one slot.
  lemma PrepareBudget(s: Sys, e: Env)
    requires s.Sys? && Budget(s) && (s.phase.Prepare? || s.phase.PrepareWake?) && 0 <= s.owner < |s.ws|
    requires SchedulerStep(s, e).Sys?
    ensures Budget(SchedulerStep(s, e))
  {
    if s.phase.PrepareWake? {
      var k := s.phase.k;
      EmptiesFill(s.ws, k, Wake(s.ws[k]), 0);
    } else if s.phase.left > 0 && s.schedule != [] {
      var job := s.schedule[0];
      var b := BindingOf(s.services, job);
      if 0 <= b < |s.ws| {
        var w := s.ws[b].(queue := s.ws[b].queue + [job]);
        EmptiesFill(s.ws, b, w, 0);
        EmptiesFill(s.ws, b, TakeBound(w), 0);
      }
    }
  }

  // assign_prepare_task: a try places the service, or passes a full slot.
  lemma AssignBudget(s: Sys, e: Env)
    requires s.Sys? && Budget(s) && s.phase.Assign? && 0 <= s.owner < |s.ws|
    ensures SchedulerStep(s, e).Sys? && Budget(SchedulerStep(s, e))
  {
    hide Enough, TakeBound;
    var Assign(k, busy, bound, prep) := s.phase;
    if prep != [] {
      NextTry(s.ws, k, busy, bound, prep);
      if k < |s.ws| && s.ws[k].ready == 0 { Places(s.ws, k, busy, bound, prep); }
    }
  }

  // A sweep ends, or a worker with a job is passed.
  lemma NextTry(ws: seq<Worker>, k: nat, busy: bool, bound: bool, prep: seq<nat>)
    requires Enough(ws, k, busy, bound, prep) && prep != []
    ensures k <= |ws| && (k == |ws| ==> !bound && Enough(ws, 0, true, busy, prep))
    ensures k < |ws| && (!bound || ws[k].ready != 0) ==> Enough(ws, k + 1, busy, bound, prep)
    ensures bound ==> busy
  {
    EmptiesEnd(ws);
    if k < |ws| { EmptiesNext(ws, k); }
  }

  // Worker k gets the service, or a bound one out of its queue.
  lemma Places(ws: seq<Worker>, k: nat, busy: bool, bound: bool, prep: seq<nat>)
    requires Enough(ws, k, busy, bound, prep) && prep != [] && k < |ws| && ws[k].ready == 0
    ensures ws[k].queue != [] ==> Enough(ws[k := TakeBound(ws[k])], k + 1, busy, bound, prep)
    ensures ws[k].queue == [] ==> Enough(ws[k := ws[k].(ready := prep[0])], k + 1, busy, bound, prep[1..])
  {
    hide Empties, TakeBound;
    EmptiesNext(ws, k);
    PlacedBudget(ws, k, ws[k].(ready := prep[0]), bound);
    if ws[k].queue != [] { PlacedBudget(ws, k, TakeBound(ws[k]), bound); }
  }

  lemma EmptiesEnd(ws: seq<Worker>)
    ensures Empties(ws, |ws|) == 0
  {
  }

  lemma EmptiesNext(ws: seq<Worker>, k: nat)
    requires k < |ws|
    ensures Empties(ws, k) == If(Empty(ws[k])) + Empties(ws, k + 1)
  {
  }

  // Filling slot k costs at most one of the slots still ahead.
  lemma PlacedBudget(ws: seq<Worker>, k: nat, w: Worker, bound: bool)
    requires k < |ws|
    ensures var from := if bound then k + 1 else 0;
      Empties(ws[k := w], from) + If(!bound && Empty(ws[k])) == Empties(ws, from) + If(!bound && Empty(w))
  {
    EmptiesFill(ws, k, w, if bound then k + 1 else 0);
  }

  lemma AssignWakeBudget(s: Sys, e: Env)
    requires s.Sys? && Budget(s) && s.phase.AssignWake? && 0 <= s.owner < |s.ws|
    ensures SchedulerStep(s, e).Sys? && Budget(SchedulerStep(s, e))
  {
    var k := s.phase.k;
    EmptiesFill(s.ws, k, Wake(s.ws[k]), if s.phase.bound then k + 1 else 0);
  }

  predicate Placing(p: Phase) {
    p.Count? || p.CountWake? || p.Prepare? || p.PrepareWake? || p.Assign? || p.AssignWake?
  }

  lemma RouteBudget(s: Sys, e: Env)
    requires s.Sys? && 0 <= s.owner < |s.ws| && (s.phase.Route? || s.phase.Settle?) && SchedulerStep(s, e).Sys?
    ensures !Placing(SchedulerStep(s, e).phase)
  {
  }

  lemma TailBudget(s: Sys, e: Env)
    requires s.Sys? && 0 <= s.owner < |s.ws| && (s.phase.Trigger? || TailPhase(s.phase)) && SchedulerStep(s, e).Sys?
    ensures !Placing(SchedulerStep(s, e).phase)
  {
    hide BindingOf;
  }

  // Step 4 starts with nothing counted.
  lemma EarlyBudget(s: Sys, e: Env)
    requires s.Sys? && 0 <= s.owner < |s.ws| && (s.phase.Collect? || s.phase.Pending? || s.phase.PendingCas?)
    requires SchedulerStep(s, e).Sys?
    ensures Budget(SchedulerStep(s, e))
  {
    hide Empties, EmptiesBefore;
    NoneBefore(s.ws);
  }

  lemma NoneBefore(ws: seq<Worker>)
    ensures EmptiesBefore(ws, 0) == 0
  {
  }

  lemma OtherBudget(s: Sys, e: Env)
    requires s.Sys? && 0 <= s.owner < |s.ws| && !Placing(s.phase) && SchedulerStep(s, e).Sys?
    ensures Budget(SchedulerStep(s, e))
  {
    hide SchedulerStep;
    if s.phase.Route? || s.phase.Settle? {
      RouteBudget(s, e);
    } else if s.phase.Collect? || s.phase.Pending? || s.phase.PendingCas? {
      EarlyBudget(s, e);
    } else if s.phase == Off {
      OffStays(s, e);
    } else {
      TailBudget(s, e);
    }
  }

  lemma OffStays(s: Sys, e: Env)
    requires s.Sys? && 0 <= s.owner < |s.ws| && s.phase == Off
    ensures SchedulerStep(s, e) == s
  {
  }

  lemma SchedulerBudget(s: Sys, e: Env)
    requires s.Sys? && Control(s) && Owned(s) && Budget(s) && s.phase != Off && AllowedRoute(s, e)
    ensures var t := SchedulerStep(s, e);
      t.Aborted? || (t.Broken? && StrayHead(s)) || (t.Sys? && Control(t) && Owned(t) && Budget(t))
    ensures StrayHead(s) ==> SchedulerStep(s, e).Broken?
  {
    hide Control, Owned, Budget, SchedulerStep, AllowedRoute, StrayHead;
    Facts2(s);
    NoHead(s);
    if s.phase.Assign? {
      AssignBudget(s, e);
      AssignKeeps(s, e);
    } else {
      SchedulerKeeps(s, e);
      if SchedulerStep(s, e).Sys? {
        match s.phase {
          case Count(_, _, _, _) => CountBudget(s, e);
          case CountWake(_, _, _, _) => CountBudget(s, e);
          case Prepare(_, _) => PrepareBudget(s, e);
          case PrepareWake(_, _, _) => PrepareBudget(s, e);
          case AssignWake(_, _, _, _) => AssignWakeBudget(s, e);
          case _ => OtherBudget(s, e);
        }
      }
    }
  }
}
