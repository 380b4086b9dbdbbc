// The assertion between steps 4 and 5, free_slot >= job_n: it holds as long as
// no service is bound to a worker.
module SchedUnbound {
  import opened SchedModel
  import opened SchedOwner
  import opened SchedDispatch
  import opened SchedEffect
  import opened SchedBudget

  ghost predicate NothingBound(m: Services, ws: seq<Worker>) {
    (forall x | x in m :: m[x].binding == -1) && forall j | 0 <= j < |ws| :: ws[j].queue == []
  }

  // No service binds itself, and none is created bound.
  predicate NeverBinds(e: Env) {
    match e.event
    case Bind(b) => b == -1
    case Init(_, b) => b == -1
    case _ => true
  }

  // Workers robbed in step 3, in increasing order.
  predicate Listed(from: seq<nat>, n: nat) {
    (forall a, b | 0 <= a < b < |from| :: from[a] < from[b]) && forall a | 0 <= a < |from| :: from[a] < n
  }

  function Below(from: seq<nat>, k: nat): nat {
    if from == [] then 0 else If(from[|from| - 1] < k) + Below(from[..|from| - 1], k)
  }

  lemma {:induction false} BelowAll(from: seq<nat>, n: nat)
    requires Listed(from, n)
    ensures Below(from, n) == |from| && Below(from, 0) == 0
  {
    if from != [] { BelowAll(from[..|from| - 1], n); }
  }

  lemma {:induction false} BelowNext(from: seq<nat>, n: nat, k: nat)
    requires Listed(from, n)
    ensures Below(from, k + 1) == Below(from, k) + If(k in from)
  {
    if from != [] {
      var front := from[..|from| - 1];
      assert from == front + [from[|from| - 1]];
      BelowNext(front, n, k);
    }
  }

  // The slots robbed in step 3 stay empty until step 4 has counted them.
  ghost predicate Robs(s: Sys)
    requires s.Sys?
  {
    match s.phase
    case Pending(k, jobs, from) => k <= |s.ws| && Listed(from, k) && |jobs| == |from| && StillEmpty(s.ws, from, 0)
    case PendingCas(k, _, jobs, from) => k < |s.ws| && Listed(from, k) && |jobs| == |from| && StillEmpty(s.ws, from, 0)
    case Count(k, free, jobs, from) =>
      Listed(from, |s.ws|) && |jobs| == |from| && StillEmpty(s.ws, from, k) && free >= Below(from, k)
    case CountWake(_, _, _, _) => false
    case _ => true
  }

  ghost predicate StillEmpty(ws: seq<Worker>, from: seq<nat>, k: nat) {
    forall j | j in from && k <= j < |ws| :: ws[j].ready == 0
  }

  lemma StillEmptyKept(ws: seq<Worker>, vs: seq<Worker>, from: seq<nat>, k: nat)
    requires |vs| == |ws| && StillEmpty(ws, from, k)
    requires forall j | 0 <= j < |ws| :: vs[j].ready == ws[j].ready || vs[j].ready == 0
    ensures StillEmpty(vs, from, k)
  {
  }

  ghost predicate Unbound(s: Sys)
    requires s.Sys?
  {
    NothingBound(s.services, s.ws) && Robs(s)
  }

  // --------------------------------------------------------- workers' steps

  lemma BindingsKept(s: Sys, i: nat, e: Env)
    requires s.Sys? && i < |s.ws| && WorkerStep(s, i, e).Sys? && NeverBinds(e)
    requires forall x | x in s.services :: s.services[x].binding == -1
    ensures var m := WorkerStep(s, i, e).services; forall x | x in m :: m[x].binding == -1
  {
    if s.ws[i].pc.Run? || s.ws[i].pc.Check? {
    } else {
      ServicesKept(s, i, e);
    }
  }

  lemma SlotsKept(s: Sys, i: nat, e: Env)
    requires s.Sys? && i < |s.ws| && WorkerStep(s, i, e).Sys?
    ensures var t := WorkerStep(s, i, e);
      |t.ws| == |s.ws| && forall j | 0 <= j < |s.ws| ::
        t.ws[j].queue == s.ws[j].queue && (t.ws[j].ready == s.ws[j].ready || t.ws[j].ready == 0)
  {
    hide WorkerStep;
    if Quits(s.ws[i].pc) {
      QuitsEffect(s, i, e);
    } else {
      Effect(s, i, e);
      SlotsOf(s, i, e);
    }
  }

  lemma WorkerUnbound(s: Sys, i: nat, e: Env)
    requires s.Sys? && i < |s.ws| && Control(s) && Unbound(s) && (s.phase == Off || s.owner != i)
    requires WorkerStep(s, i, e).Sys? && NeverBinds(e)
    ensures Unbound(WorkerStep(s, i, e))
  {
    hide Control, WorkerStep;
    var t := WorkerStep(s, i, e);
    BindingsKept(s, i, e);
    SlotsKept(s, i, e);
    if s.phase == Off {
      IdleEffect(s, i, e);
    } else {
      RoundKept(s, i, e);
      match s.phase {
        case Pending(_, _, from) => StillEmptyKept(s.ws, t.ws, from, 0);
        case PendingCas(_, _, _, from) => StillEmptyKept(s.ws, t.ws, from, 0);
        case Count(k, _, _, from) => StillEmptyKept(s.ws, t.ws, from, k);
        case _ =>
      }
    }
  }

  // -------------------------------------------------------- scheduler's steps

  lemma PendingUnbound(s: Sys, e: Env)
    requires s.Sys? && 0 <= s.owner < |s.ws| && Unbound(s) && (s.phase.Pending? || s.phase.PendingCas?)
    ensures SchedulerStep(s, e).Sys? && Unbound(SchedulerStep(s, e))
  {
    hide NothingBound;
    var k := s.phase.k;
    var from := s.phase.from;
    if s.phase.Pending? && k == |s.ws| {
      BelowAll(from, k);
    } else if s.phase.PendingCas? && s.ws[k].ready == s.phase.job && !e.fail {
      SlotsUnbound(s.services, s.ws, k, s.ws[k].(ready := 0));
    }
  }

  // A worker whose binding queue stays empty may change in anything else.
  lemma SlotsUnbound(m: Services, ws: seq<Worker>, k: nat, w: Worker)
    requires NothingBound(m, ws) && k < |ws| && w.queue == ws[k].queue
    ensures NothingBound(m, ws[k := w]) && ws[k].queue == []
  {
  }

  // Step 4 counts at least the slots step 3 emptied.
  lemma CountUnbound(s: Sys, e: Env)
    requires s.Sys? && 0 <= s.owner < |s.ws| && Unbound(s) && s.phase.Count? && s.phase.k <= |s.ws|
    ensures SchedulerStep(s, e).Sys? && Unbound(SchedulerStep(s, e))
  {
    var Count(k, free, jobs, from) := s.phase;
    if k == |s.ws| { BelowAll(from, k); } else { BelowNext(from, |s.ws|, k); }
  }

  lemma NoQueue(s: Sys, k: nat)
    requires s.Sys? && Unbound(s) && k < |s.ws|
    ensures s.ws[k].queue == []
  {
  }

  lemma NotBound(s: Sys, x: nat)
    requires s.Sys? && Unbound(s)
    ensures BindingOf(s.services, x) == -1
  {
  }

  lemma PrepareUnbound(s: Sys, e: Env)
    requires s.Sys? && 0 <= s.owner < |s.ws| && Unbound(s) && (s.phase.Prepare? || s.phase.PrepareWake?)
    ensures SchedulerStep(s, e).Sys? && Unbound(SchedulerStep(s, e))
  {
    hide NothingBound;
    if s.phase.Prepare? {
      if s.schedule != [] { NotBound(s, s.schedule[0]); }
    } else if s.phase.k < |s.ws| {
      SlotsUnbound(s.services, s.ws, s.phase.k, Wake(s.ws[s.phase.k]));
    }
  }

  lemma AssignUnbound(s: Sys, e: Env)
    requires s.Sys? && 0 <= s.owner < |s.ws| && Unbound(s) && (s.phase.Assign? || s.phase.AssignWake?)
    requires SchedulerStep(s, e).Sys?
    ensures Unbound(SchedulerStep(s, e))
  {
    hide NothingBound, TakeBound;
    if s.phase.k < |s.ws| {
      NoQueue(s, s.phase.k);
      SlotsUnbound(s.services, s.ws, s.phase.k, Wake(s.ws[s.phase.k]));
      if s.phase.Assign? && s.phase.prep != [] {
        SlotsUnbound(s.services, s.ws, s.phase.k, s.ws[s.phase.k].(ready := s.phase.prep[0]));
      }
    }
  }

  lemma RouteUnbound(s: Sys, e: Env)
    requires s.Sys? && 0 <= s.owner < |s.ws| && Unbound(s) && (s.phase.Route? || s.phase.Settle?)
    requires SchedulerStep(s, e).Sys?
    ensures Unbound(SchedulerStep(s, e))
  {
    hide Robs;
    var t := SchedulerStep(s, e);
    RouteGoes(s, e);
    NoRobs(t);
  }

  lemma RouteGoes(s: Sys, e: Env)
    requires s.Sys? && 0 <= s.owner < |s.ws| && (s.phase.Route? || s.phase.Settle?) && SchedulerStep(s, e).Sys?
    ensures var t := SchedulerStep(s, e); t.ws == s.ws && (t.phase.Route? || t.phase.Settle? || t.phase == Pending(0, [], []))
  {
  }

  lemma NoRobs(s: Sys)
    requires s.Sys? && (s.phase.Route? || s.phase.Settle? || s.phase == Pending(0, [], []))
    ensures Robs(s)
  {
  }

  lemma CollectUnbound(s: Sys, e: Env)
    requires s.Sys? && 0 <= s.owner < |s.ws| && Unbound(s) && s.phase.Collect?
    ensures SchedulerStep(s, e).Sys? && Unbound(SchedulerStep(s, e))
  {
  }

  // Only the ready slots and a program counter change.
  lemma TailUnbound(s: Sys, e: Env)
    requires s.Sys? && 0 <= s.owner < |s.ws| && Unbound(s) && (s.phase.Trigger? || TailPhase(s.phase))
    ensures SchedulerStep(s, e).Sys? && Unbound(SchedulerStep(s, e))
  {
    hide NothingBound, Robs;
    var t, i := SchedulerStep(s, e), s.owner;
    match s.phase {
      case Trigger => if s.ws[i].pc.Redo? { SlotsUnbound(s.services, s.ws, i, s.ws[i].(pc := Complete3(s.ws[i].pc.id))); }
      case OwnCas(k, _) => if k < |s.ws| { SlotsUnbound(s.services, s.ws, k, s.ws[k].(ready := 0)); }
      case OwnStore(job) => SlotsUnbound(s.services, s.ws, i, s.ws[i].(ready := job));
      case Release(_) => SlotsUnbound(s.services, s.ws, i, s.ws[i].(pc := t.ws[i].pc));
      case HasJob =>
      case OwnSteal(_) =>
    }
    TailRobs(t);
  }

  lemma TailRobs(s: Sys)
    requires s.Sys? && (s.phase == Off || TailPhase(s.phase))
    ensures Robs(s)
  {
  }

  lemma SchedulerUnbound(s: Sys, e: Env)
    requires s.Sys? && 0 <= s.owner < |s.ws| && Unbound(s) && Budget(s) && s.phase != Off && !SchedulerStep(s, e).Broken?
    ensures SchedulerStep(s, e).Sys? && Unbound(SchedulerStep(s, e))
  {
    hide Unbound, SchedulerStep;
    match s.phase {
      case Pending(_, _, _) => PendingUnbound(s, e);
      case PendingCas(_, _, _, _) => PendingUnbound(s, e);
      case Count(_, _, _, _) => CountUnbound(s, e);
      case CountWake(_, _, _, _) => Unreached(s);
      case Prepare(_, _) => PrepareUnbound(s, e);
      case PrepareWake(_, _, _) => PrepareUnbound(s, e);
      case Assign(_, _, _, _) => NotAborted(s, e); AssignUnbound(s, e);
      case AssignWake(_, _, _, _) => NotAborted(s, e); AssignUnbound(s, e);
      case Route(_) => NotAborted(s, e); RouteUnbound(s, e);
      case Settle(_) => NotAborted(s, e); RouteUnbound(s, e);
      case Collect(_, _) => CollectUnbound(s, e);
      case _ => TailUnbound(s, e);
    }
  }

  lemma Unreached(s: Sys)
    requires s.Sys? && Unbound(s)
    ensures !s.phase.CountWake?
  {
  }

  lemma NotAborted(s: Sys, e: Env)
    requires s.Sys? && 0 <= s.owner < |s.ws| && !s.phase.Count?
    ensures !SchedulerStep(s, e).Aborted?
  {
  }
}
