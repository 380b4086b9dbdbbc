// Left to themselves the workers work off all that is left: from any state
// with a stray there is a run in which nobody posts anything and no
// compare-and-swap steals a job, and it ends where the stray is routed.
module SchedDrain {
  import opened SchedModel
  import opened Sets
  import opened SchedOwner
  import opened SchedDispatch
  import opened SchedEffect
  import opened SchedBudget
  import SchedUnbound
  import opened SchedWake
  import opened SchedStrand
  import opened SchedStray
  import opened SchedTheorem
  import opened SchedRound

  // ---------------------------------------------------------- what is left

  // How far from its end a job in a worker's hands is.
  function Weight(pc: Pc): nat {
    match pc
    case Begin(_) => 10
    case Check(_) => 9
    case Run(_) => 8
    case After(_, _) => 7
    case Complete(_) => 6
    case AcquireFor(_) => 5
    case Complete2(_) => 4
    case Redo(_) => 3
    case Complete3(_) => 2
    case _ => 0
  }

  function WorkOf(w: Worker): nat {
    (if w.ready != 0 then 11 else 0) + 11 * |w.queue| + (if w.done != 0 then 1 else 0) + Weight(w.pc)
  }

  function Works(ws: seq<Worker>): nat {
    if ws == [] then 0 else WorkOf(ws[0]) + Works(ws[1..])
  }

  function InHand(p: Phase): nat {
    if Local(p).1 == Ready then |Local(p).0| else 0
  }

  function Work(s: Sys): nat
    requires s.Sys?
  {
    Works(s.ws) + 11 * |s.schedule| + 11 * InHand(s.phase)
  }

  function Signals(m: Services): set<nat> {
    set x | x in m && m[x].signal
  }

  // Less is left in t than in s.
  predicate Lower(t: Sys, s: Sys)
    requires t.Sys? && s.Sys?
  {
    |Signals(t.services)| < |Signals(s.services)| ||
    (|Signals(t.services)| == |Signals(s.services)| && Work(t) < Work(s))
  }

  predicate Level(t: Sys, s: Sys)
    requires t.Sys? && s.Sys?
  {
    |Signals(t.services)| == |Signals(s.services)| && Work(t) == Work(s)
  }

  lemma {:induction false} WorksReplace(ws: seq<Worker>, i: nat, w: Worker)
    requires i < |ws|
    ensures Works(ws[i := w]) + WorkOf(ws[i]) == Works(ws) + WorkOf(w)
  {
    if i > 0 {
      assert ws[i := w][1..] == ws[1..][i - 1 := w];
      WorksReplace(ws[1..], i - 1, w);
    } else {
      assert ws[i := w][1..] == ws[1..];
    }
  }

  // No job stolen in step 3 is in the scheduler's hands.
  predicate EmptyHanded(p: Phase) {
    match p
    case Pending(_, jobs, _) => jobs == []
    case PendingCas(_, _, jobs, _) => jobs == []
    case Count(_, _, jobs, _) => jobs == []
    case CountWake(_, _, jobs, _) => jobs == []
    case _ => true
  }

  // A state from which what is left can be worked off down to the stray.
  ghost predicate Astray(s: Sys) {
    s.Sys? && Good(s) && HasStray(s.services) && !Stopping(s.ws) && EmptyHanded(s.phase)
  }

  // ------------------------------------------------- the scheduler, undisturbed

  // Nothing is stolen, nobody has a message, every service yields.
  const QUIET := Env(true, false, NoMessage, Yield)

  // ... and a worker gets what it tries to take.
  const EAGER := Env(false, false, NoMessage, Yield)

  // The services stay, and so does the work: worker k becomes w.
  lemma Moved(s: Sys, t: Sys, k: nat, w: Worker)
    requires s.Sys? && t.Sys? && k < |s.ws| && t.ws == s.ws[k := w]
    requires |Signals(t.services)| == |Signals(s.services)|
    requires WorkOf(w) + 11 * |t.schedule| + 11 * InHand(t.phase) ==
      WorkOf(s.ws[k]) + 11 * |s.schedule| + 11 * InHand(s.phase)
    ensures Level(t, s)
  {
    hide WorkOf, InHand;
    WorksReplace(s.ws, k, w);
  }

  lemma Lessened(s: Sys, t: Sys, k: nat, w: Worker)
    requires s.Sys? && t.Sys? && k < |s.ws| && t.ws == s.ws[k := w]
    requires |Signals(t.services)| == |Signals(s.services)|
    requires WorkOf(w) + 11 * |t.schedule| + 11 * InHand(t.phase) <
      WorkOf(s.ws[k]) + 11 * |s.schedule| + 11 * InHand(s.phase)
    ensures Lower(t, s)
  {
    hide WorkOf, InHand;
    WorksReplace(s.ws, k, w);
  }

  lemma SamePlace(s: Sys, t: Sys)
    requires s.Sys? && t.Sys? && t.ws == s.ws && t.schedule == s.schedule && InHand(t.phase) == InHand(s.phase)
    requires |Signals(t.services)| == |Signals(s.services)|
    ensures Level(t, s)
  {
  }

  // The step keeps hands empty and leaves as much or less.
  predicate Goes(s: Sys, t: Sys)
    requires s.Sys?
  {
    t.Sys? && EmptyHanded(t.phase) && (Level(t, s) || Lower(t, s))
  }

  lemma CollectGoes(s: Sys)
    requires s.Sys? && s.phase.Collect? && 0 <= s.owner < |s.ws|
    ensures var t := SchedulerStep(s, QUIET);
      Goes(s, t) && (s.phase.k < |s.ws| && s.ws[s.phase.k].done != 0 ==> Lower(t, s))
  {
    hide Lower, Level, Works, Signals;
    var Collect(k, jobs) := s.phase;
    var t := SchedulerStep(s, QUIET);
    if k < |s.ws| && s.ws[k].done != 0 {
      Lessened(s, t, k, s.ws[k].(done := 0));
    } else {
      SamePlace(s, t);
    }
  }

  lemma FewerSignals(m: Services, n: Services, id: nat)
    requires id in m && m[id].signal
    requires forall x | x in n && n[x].signal :: x != id && x in m && m[x].signal
    ensures |Signals(n)| < |Signals(m)|
  {
    assert Signals(n) <= Signals(m) - {id};
    SubsetSize(Signals(n), Signals(m) - {id});
  }

  lemma SameSignals(m: Services, n: Services)
    requires forall x :: x in m && m[x].signal <==> x in n && n[x].signal
    ensures |Signals(n)| == |Signals(m)|
  {
    assert Signals(n) == Signals(m);
  }

  // A death that root can be told of.
  lemma ReportGoes(s: Sys)
    requires s.Sys? && Control(s) && Owned(s) && s.phase.Route? && s.phase.jobs != [] && 0 <= s.owner < |s.ws|
    requires s.phase.jobs[0] in s.services && Reporting(s.services[s.phase.jobs[0]])
    ensures SchedulerStep(s, QUIET).Sys? ==> Goes(s, SchedulerStep(s, QUIET))
  {
    hide Control, Owned, Works, InHand, WorkOf;
    var t := SchedulerStep(s, QUIET);
    if t.Sys? { FewerSignals(s.services, t.services, s.phase.jobs[0]); }
  }

  lemma RouteGoes(s: Sys)
    requires s.Sys? && Control(s) && Owned(s) && s.phase.Route? && 0 <= s.owner < |s.ws|
    ensures SchedulerStep(s, QUIET).Sys? ==> Goes(s, SchedulerStep(s, QUIET))
  {
    hide Control, Owned, Works, Signals, Lower, Level;
    if s.phase.jobs != [] {
      RoutedHead(s);
      if Reporting(s.services[s.phase.jobs[0]]) {
        ReportGoes(s);
      } else if SchedulerStep(s, QUIET).Sys? {
        SamePlace(s, SchedulerStep(s, QUIET));
      }
    } else {
      SamePlace(s, SchedulerStep(s, QUIET));
    }
  }

  lemma SettleGoes(s: Sys)
    requires s.Sys? && s.phase.Settle? && 0 <= s.owner < |s.ws| && SchedulerStep(s, QUIET).Sys?
    ensures Goes(s, SchedulerStep(s, QUIET))
  {
    hide Works, Lower, Level, Signals;
    var t := SchedulerStep(s, QUIET);
    SameSignals(s.services, t.services);
    SamePlace(s, t);
  }

  // Steps 3 and 4.
  lemma PendingGoes(s: Sys)
    requires s.Sys? && (s.phase.Pending? || s.phase.PendingCas?) && EmptyHanded(s.phase) && 0 <= s.owner < |s.ws|
    ensures Goes(s, SchedulerStep(s, QUIET))
  {
    hide Works, Lower, Level, Signals;
    SamePlace(s, SchedulerStep(s, QUIET));
  }

  lemma TakeBoundWork(w: Worker)
    requires w.ready == 0 && w.queue != [] && w.queue[0] != 0
    ensures WorkOf(TakeBound(w)) == WorkOf(w)
  {
  }

  lemma CountGoes(s: Sys)
    requires s.Sys? && Control(s) && Owned(s) && s.phase.Count? && EmptyHanded(s.phase) && 0 <= s.owner < |s.ws|
    ensures Goes(s, SchedulerStep(s, QUIET))
  {
    hide Control, Owned, Works, Lower, Level, Signals, WorkOf, TakeBound;
    var k, t := s.phase.k, SchedulerStep(s, QUIET);
    if k < |s.ws| && s.ws[k].ready == 0 && s.ws[k].queue != [] {
      NotNull(s, k);
      TakeBoundWork(s.ws[k]);
      Moved(s, t, k, TakeBound(s.ws[k]));
    } else {
      SamePlace(s, t);
    }
  }

  lemma WakingGoes(s: Sys)
    requires s.Sys? && (s.phase.CountWake? || s.phase.PrepareWake? || s.phase.AssignWake?) && EmptyHanded(s.phase)
    requires 0 <= s.owner < |s.ws|
    ensures Goes(s, SchedulerStep(s, QUIET))
  {
    hide Works, Lower, Level, Signals;
    var k, t := s.phase.k, SchedulerStep(s, QUIET);
    if k < |s.ws| && !s.ws[k].pc.Locked? { Moved(s, t, k, Wake(s.ws[k])); } else { SamePlace(s, t); }
  }

  lemma PrepareGoes(s: Sys)
    requires s.Sys? && Control(s) && Owned(s) && s.phase.Prepare? && 0 <= s.owner < |s.ws|
    requires SchedulerStep(s, QUIET).Sys?
    ensures Goes(s, SchedulerStep(s, QUIET))
  {
    hide Control, Owned, Works, Lower, Level, Signals, WorkOf, TakeBound;
    var t := SchedulerStep(s, QUIET);
    if s.phase.left > 0 && s.schedule != [] {
      var job := s.schedule[0];
      var b := BindingOf(s.services, job);
      QueuedIsOwned(s, job);
      if 0 <= b < |s.ws| && |s.ws[b].queue| < BINDING_SERVICE_QUEUE {
        PrepareBoundGoes(s, b, job);
      } else {
        assert t.ws == s.ws[0 := s.ws[0]];
        Moved(s, t, 0, s.ws[0]);
      }
    } else {
      SamePlace(s, t);
    }
  }

  lemma Longer(w: Worker, job: nat)
    ensures WorkOf(w.(queue := w.queue + [job])) == WorkOf(w) + 11
  {
  }

  lemma PrepareBoundGoes(s: Sys, b: nat, job: nat)
    requires s.Sys? && Control(s) && Owned(s) && s.phase.Prepare? && 0 <= s.owner < |s.ws| && b < |s.ws|
    requires s.phase.left > 0 && s.schedule != [] && s.schedule[0] == job && BindingOf(s.services, job) == b
    requires |s.ws[b].queue| < BINDING_SERVICE_QUEUE
    ensures Goes(s, SchedulerStep(s, QUIET))
  {
    hide Control, Owned, Works, Lower, Level, Signals, WorkOf, TakeBound;
    var w := s.ws[b].(queue := s.ws[b].queue + [job]);
    var v := if w.ready != 0 then w else TakeBound(w);
    Facts2(s);
    QueuedIsOwned(s, job);
    if s.ws[b].queue != [] { NotNull(s, b); }
    EnqueuedHead(s.ws[b], job);
    Longer(s.ws[b], job);
    if w.ready == 0 { TakeBoundWork(w); }
    Moved(s, SchedulerStep(s, QUIET), b, v);
  }

  lemma Filled(w: Worker, job: nat)
    requires w.ready == 0 && job != 0
    ensures WorkOf(w.(ready := job)) == WorkOf(w) + 11
  {
  }

  lemma AssignGoes(s: Sys)
    requires s.Sys? && Control(s) && Owned(s) && s.phase.Assign? && 0 <= s.owner < |s.ws|
    requires SchedulerStep(s, QUIET).Sys?
    ensures Goes(s, SchedulerStep(s, QUIET))
  {
    hide Control, Owned, Works, Lower, Level, Signals, WorkOf, TakeBound;
    var Assign(k, busy, bound, prep) := s.phase;
    var t := SchedulerStep(s, QUIET);
    if prep != [] && k < |s.ws| && busy && (s.ws[k].binding == 0 || bound) && s.ws[k].ready == 0 {
      if s.ws[k].queue != [] {
        NotNull(s, k);
        TakeBoundWork(s.ws[k]);
        Moved(s, t, k, TakeBound(s.ws[k]));
      } else {
        Facts2(s);
        LocalIsOwned(s, prep[0]);
        Filled(s.ws[k], prep[0]);
        Moved(s, t, k, s.ws[k].(ready := prep[0]));
      }
    } else {
      SamePlace(s, t);
    }
  }

  // Step 7: one more step of Redo is done, or nothing moves.
  lemma TriggerGoes(s: Sys)
    requires s.Sys? && s.phase.Trigger? && 0 <= s.owner < |s.ws|
    ensures Goes(s, SchedulerStep(s, QUIET))
  {
    hide Works, Lower, Level, Signals;
    var i, t := s.owner, SchedulerStep(s, QUIET);
    if s.ws[i].pc.Redo? {
      Lessened(s, t, i, s.ws[i].(pc := Complete3(s.ws[i].pc.id)));
    } else {
      SamePlace(s, t);
    }
  }

  // The owner looks for a job of its own and steals none.
  lemma StealGoes(s: Sys)
    requires s.Sys? && (s.phase.HasJob? || s.phase.OwnSteal? || s.phase.OwnCas?) && 0 <= s.owner < |s.ws|
    ensures Goes(s, SchedulerStep(s, QUIET))
  {
    hide Works, Lower, Level, Signals, WorkOf;
    SamePlace(s, SchedulerStep(s, QUIET));
  }

  lemma StoreGoes(s: Sys)
    requires s.Sys? && Control(s) && s.phase.OwnStore? && 0 <= s.owner < |s.ws|
    ensures Goes(s, SchedulerStep(s, QUIET))
  {
    hide Control, Works, Lower, Level, Signals, WorkOf;
    Facts2(s);
    Filled(s.ws[s.owner], s.phase.job);
    Moved(s, SchedulerStep(s, QUIET), s.owner, s.ws[s.owner].(ready := s.phase.job));
  }

  lemma ReleaseGoes(s: Sys)
    requires s.Sys? && Control(s) && s.phase.Release? && 0 <= s.owner < |s.ws|
    ensures Goes(s, SchedulerStep(s, QUIET))
  {
    hide Control, Works, Lower, Level, Signals;
    Facts2(s);
    var i := s.owner;
    Moved(s, SchedulerStep(s, QUIET), i, s.ws[i].(pc := if s.ws[i].pc.idle then CheckDone(s.phase.nojob) else Top));
  }

  lemma OwnerGoes(s: Sys)
    requires s.Sys? && Control(s) && Owned(s) && s.phase != Off && EmptyHanded(s.phase) && 0 <= s.owner < |s.ws|
    requires !SchedulerStep(s, QUIET).Broken?
    ensures Goes(s, SchedulerStep(s, QUIET))
  {
    hide Control, Owned, SchedulerStep, Goes, EmptyHanded;
    match s.phase {
      case Collect(_, _) => CollectGoes(s);
      case Route(_) => NoAbort(s); RouteGoes(s);
      case Settle(_) => NoAbort(s); SettleGoes(s);
      case Pending(_, _, _) => PendingGoes(s);
      case PendingCas(_, _, _, _) => PendingGoes(s);
      case Count(_, _, _, _) => CountGoes(s);
      case CountWake(_, _, _, _) => WakingGoes(s);
      case Prepare(_, _) => NoAbort(s); PrepareGoes(s);
      case PrepareWake(_, _, _) => WakingGoes(s);
      case Assign(_, _, _, _) => NoAbort(s); AssignGoes(s);
      case AssignWake(_, _, _, _) => WakingGoes(s);
      case Trigger => TriggerGoes(s);
      case OwnStore(_) => StoreGoes(s);
      case Release(_) => ReleaseGoes(s);
      case _ => StealGoes(s);
    }
  }

  lemma NoAbort(s: Sys)
    requires s.Sys? && !s.phase.Count? && 0 <= s.owner < |s.ws|
    ensures !SchedulerStep(s, QUIET).Aborted?
  {
    SchedUnbound.NotAborted(s, QUIET);
  }

  // One quiet step of the owner.
  lemma OwnerStep(s: Sys)
    requires Astray(s) && s.phase != Off
    ensures 0 <= s.owner < |s.ws| && Allowed(s, s.owner, QUIET)
    ensures var t := Step(s, s.owner, QUIET); t.Broken? || (Astray(t) && (Level(t, s) || Lower(t, s)))
  {
    hide Control, Owned, Budget, SchedBound.Bound, Awake, Strand, Traced, SchedulerStep, HasStray, Stopping, Lower, Level, EmptyHanded;
    Facts2(s);
    QuietAllowed(s, s.owner, QUIET);
    StepKeeps(s, s.owner, QUIET);
    AllowedCases(s, s.owner, QUIET);
    if !SchedulerStep(s, QUIET).Broken? {
      OwnerGoes(s);
      SchedulerStrays(s, QUIET);
      NoNewStopper(s, QUIET);
    }
  }

  predicate Tame(e: Env) {
    !e.flag && e.message == NoMessage && e.event == Yield
  }

  lemma QuietAllowed(s: Sys, i: nat, e: Env)
    requires Tame(e)
    ensures Allowed(s, i, e)
  {
  }

  // A quiet step of a worker that is not in the middle of the scheduler.
  lemma WorkerMove(s: Sys, i: nat, e: Env)
    requires Astray(s) && i < |s.ws| && Tame(e) && (s.phase == Off || s.owner != i)
    ensures var t := Step(s, i, e); Allowed(s, i, e) && t.Sys? && t == WorkerStep(s, i, e)
    ensures var t := Step(s, i, e); Astray(t) && |Signals(t.services)| == |Signals(s.services)|
    ensures var t := Step(s, i, e);
      t.ws == s.ws[i := NextWorker(s, i, e)] && t.schedule == s.schedule && (t.phase == s.phase || s.phase == Off)
  {
    hide Control, Owned, Budget, SchedBound.Bound, Awake, Strand, Traced, WorkerStep, HasStray, Stopping, EmptyHanded, NextWorker, Signals;
    QuietAllowed(s, i, e);
    NotStopping(s, i);
    StepKeeps(s, i, e);
    WorkerKeeps(s, i, e);
    WorkerStrays(s, i, e);
    Effect(s, i, e);
    TameEvents(s, i, e);
    if s.phase != Off { RoundKept(s, i, e); } else { IdleEffect(s, i, e); }
    OutOfRound(s, WorkerStep(s, i, e));
    StillRunning(s, i, e);
  }

  lemma OutOfRound(s: Sys, t: Sys)
    requires s.Sys? && t.Sys? && EmptyHanded(s.phase)
    ensures t.phase == s.phase || t.phase == Off || t.phase == Collect(0, []) ==> EmptyHanded(t.phase)
  {
  }

  lemma NotStopping(s: Sys, i: nat)
    requires s.Sys? && i < |s.ws| && !Stopping(s.ws) && Traced(s)
    ensures !Stopper(s.ws[i].pc) && !s.ws[i].term && !Quits(s.ws[i].pc)
  {
  }

  lemma TameEvents(s: Sys, i: nat, e: Env)
    requires s.Sys? && i < |s.ws| && Tame(e) && WorkerStep(s, i, e).Sys?
    ensures |Signals(WorkerStep(s, i, e).services)| == |Signals(s.services)|
  {
    hide Signals;
    if s.ws[i].pc.Run? || s.ws[i].pc.Check? {
      SameSignals(s.services, WorkerStep(s, i, e).services);
    } else {
      ServicesKept(s, i, e);
    }
  }

  lemma StillRunning(s: Sys, i: nat, e: Env)
    requires s.Sys? && i < |s.ws| && !Stopping(s.ws) && Traced(s) && Tame(e) && WorkerStep(s, i, e).Sys?
    ensures !Stopping(WorkerStep(s, i, e).ws)
  {
    hide Traced, WorkerStep, NextWorker;
    NotStopping(s, i);
    Effect(s, i, e);
    TameNext(s, i, e);
  }

  lemma TameNext(s: Sys, i: nat, e: Env)
    requires s.Sys? && i < |s.ws| && !s.ws[i].term && !Stopper(s.ws[i].pc) && Tame(e)
    ensures !Stopper(NextWorker(s, i, e).pc)
  {
    hide OwnStep, BindingOf, StatusOf;
    NoStop(s.ws[i], s.blocked);
  }

  // ------------------------------------------------------------ a round to its end

  predicate Unblocked(actions: seq<Action>) {
    forall a | a in actions :: !a.env.flag
  }

  lemma Prepend(s: Sys, a: Action, rest: seq<Action>)
    requires Allowed(s, a.worker, a.env) && AllAllowed(Step(s, a.worker, a.env), rest) && !a.env.flag && Unblocked(rest)
    ensures AllAllowed(s, [a] + rest) && Unblocked([a] + rest)
    ensures RunAll(s, [a] + rest) == RunAll(Step(s, a.worker, a.env), rest)
  {
    hide Step, Allowed;
    assert ([a] + rest)[0] == a && ([a] + rest)[1..] == rest;
  }

  // What a run from s has achieved when it is in t.
  ghost predicate Nearer(t: Sys, s: Sys)
    requires s.Sys?
  {
    t.Broken? || (Astray(t) && Lower(t, s))
  }

  lemma NearerAfter(u: Sys, t: Sys, s: Sys)
    requires s.Sys? && t.Sys? && (Level(t, s) || Lower(t, s)) && Nearer(u, t)
    ensures Nearer(u, s)
  {
    hide Astray, Work, Signals;
  }

  // The owner is between worker_complete_job and schedule_dispatch.
  lemma OwnerCompletes(s: Sys)
    requires Astray(s) && s.owner != NONE && s.phase == Off
    ensures 0 <= s.owner < |s.ws| && Allowed(s, s.owner, EAGER) && Nearer(Step(s, s.owner, EAGER), s)
  {
    hide Control, Owned, Budget, SchedBound.Bound, Awake, Strand, HasStray, Stopping, Step, Signals, Works, WorkOf, NextWorker, Collected;
    OwnerAt(s);
    var i := s.owner;
    WorkerMove(s, i, EAGER);
    CompletesLess(s, i);
    EntersHand(s, i);
    Lessened(s, Step(s, i, EAGER), i, NextWorker(s, i, EAGER));
  }

  lemma OwnerAt(s: Sys)
    requires s.Sys? && Control(s) && s.owner != NONE && s.phase == Off
    ensures 0 <= s.owner < |s.ws| && (s.ws[s.owner].pc.Complete2? || s.ws[s.owner].pc.Complete3?)
  {
    assert OwnerPc(s.ws[s.owner].pc);
  }

  lemma CompletesLess(s: Sys, i: nat)
    requires s.Sys? && i < |s.ws| && (s.ws[i].pc.Complete2? || s.ws[i].pc.Complete3?) && Collected(s.ws[i], s.phase, i)
    ensures WorkOf(NextWorker(s, i, EAGER)) < WorkOf(s.ws[i])
  {
  }

  lemma EntersHand(s: Sys, i: nat)
    requires s.Sys? && i < |s.ws| && s.phase == Off && (s.ws[i].pc.Complete2? || s.ws[i].pc.Complete3?)
    ensures WorkerStep(s, i, EAGER).Sys? && InHand(WorkerStep(s, i, EAGER).phase) == InHand(s.phase) == 0
  {
    hide WorkerStep;
    if s.ws[i].pc.Complete2? { Complete2Is(s, i, EAGER); } else { Complete3Is(s, i, EAGER); }
  }

  // The scheduler waits for a lock: its holder goes on.
  lemma LockGoes(s: Sys) returns (k: nat)
    requires Astray(s) && s.phase != Off && Waits(s)
    ensures k < |s.ws| && Allowed(s, k, QUIET)
    ensures var t := Step(s, k, QUIET); Astray(t) && Level(t, s) && t.phase == s.phase && !Waits(t) && |t.ws| == |s.ws|
  {
    hide Control, Owned, Budget, SchedBound.Bound, Awake, Strand, HasStray, Stopping, Step, Signals, Works, WorkOf, NextWorker;
    k := s.phase.k;
    NotOwning(s, k);
    WorkerMove(s, k, QUIET);
    Unlocked(s, k);
    Moved(s, Step(s, k, QUIET), k, NextWorker(s, k, QUIET));
  }

  lemma NotOwning(s: Sys, k: nat)
    requires s.Sys? && Control(s) && k < |s.ws| && s.ws[k].pc.Locked?
    ensures s.owner != k
  {
  }

  lemma Unlocked(s: Sys, k: nat)
    requires s.Sys? && k < |s.ws| && s.ws[k].pc.Locked?
    ensures var v := NextWorker(s, k, QUIET); WorkOf(v) == WorkOf(s.ws[k]) && !v.pc.Locked?
  {
    hide Rebind;
  }

  lemma RoundGoes(s: Sys)
    requires Astray(s) && s.phase != Off && !Waits(s)
    ensures 0 <= s.owner < |s.ws| && Allowed(s, s.owner, QUIET)
    ensures var t := Step(s, s.owner, QUIET);
      t.Broken? || (Astray(t) && (Level(t, s) || Lower(t, s)) && |t.ws| == |s.ws| &&
                    SchedRound.Less(Rank(t.phase, |s.ws|), Rank(s.phase, |s.ws|)))
  {
    hide Control, Owned, Budget, SchedBound.Bound, Awake, Strand, Traced, HasStray, Stopping, SchedulerStep, Signals, Works, Work,
         Rank, EmptyHanded;
    OwnerStep(s);
    if Step(s, s.owner, QUIET).Sys? {
      RankFalls(s, QUIET);
      SchedulerHandles(s, QUIET, s.owner);
    }
  }

  lemma {:induction false} FinishRound(s: Sys) returns (more: seq<Action>)
    requires Astray(s) && s.owner != NONE
    ensures AllAllowed(s, more) && Unblocked(more)
    ensures var t := RunAll(s, more); Nearer(t, s) || (Astray(t) && Level(t, s) && t.owner == NONE)
    decreases Rank(s.phase, |s.ws|).0, Rank(s.phase, |s.ws|).1, if Waits(s) then 1 else 0
  {
    hide Astray, Step, Allowed, Level, Lower, Rank, Waits;
    SysOf(s);
    if s.phase == Off {
      OwnerCompletes(s);
      Prepend(s, Action(s.owner, EAGER), []);
      more := [Action(s.owner, EAGER)] + [];
    } else {
      var i := s.owner;
      if Waits(s) { i := LockGoes(s); } else { RoundGoes(s); }
      var t := Step(s, i, QUIET);
      if !t.Broken? { SysOf(t); }
      var rest := [];
      if t.Sys? && !Lower(t, s) && t.owner != NONE { rest := FinishRound(t); Onward(RunAll(t, rest), t, s); }
      Prepend(s, Action(i, QUIET), rest);
      more := [Action(i, QUIET)] + rest;
    }
  }

  lemma SysOf(s: Sys)
    requires Astray(s)
    ensures s.Sys?
  {
  }

  lemma Onward(u: Sys, t: Sys, s: Sys)
    requires s.Sys? && t.Sys? && Level(t, s)
    requires Nearer(u, t) || (Astray(u) && Level(u, t) && u.owner == NONE)
    ensures Nearer(u, s) || (Astray(u) && Level(u, s) && u.owner == NONE)
  {
    hide Good, HasStray, Stopping, Work, Signals;
  }

  // ------------------------------------------------- nobody has the scheduler

  lemma FreeScheduler(s: Sys)
    requires Astray(s) && s.owner == NONE
    ensures s.phase == Off && forall i | 0 <= i < |s.ws| :: !OwnerPc(s.ws[i].pc)
  {
  }

  // A worker with a job in its hands goes on with it.
  lemma HandGoes(s: Sys, i: nat)
    requires Astray(s) && s.owner == NONE && i < |s.ws| && Held(s.ws[i].pc).0 != 0
    ensures Allowed(s, i, EAGER) && Nearer(Step(s, i, EAGER), s)
  {
    hide Control, Owned, Budget, SchedBound.Bound, Awake, Strand, Traced, HasStray, Stopping, Step, Signals, Works;
    FreeScheduler(s);
    WorkerMove(s, i, EAGER);
    var t := Step(s, i, EAGER);
    HandLessens(s, i);
    TakenOver(s, i);
    Lessened(s, t, i, NextWorker(s, i, EAGER));
  }

  lemma HandLessens(s: Sys, i: nat)
    requires s.Sys? && i < |s.ws| && s.owner == NONE && Held(s.ws[i].pc).0 != 0 && !OwnerPc(s.ws[i].pc)
    ensures WorkOf(NextWorker(s, i, EAGER)) < WorkOf(s.ws[i])
  {
    hide StatusOf, BindingOf, OwnStep, Rebind, WorkOf;
    var w := s.ws[i];
    match w.pc {
      case Begin(id) => BeginLessens(w, s.blocked);
      case After(id, dead) => RebindLessens(w, id, dead, BindingOf(s.services, id) == i);
      case Complete(id) => PcLessens(w, AcquireFor(id)); DoneLessens(w, id);
      case AcquireFor(id) => PcLessens(w, Complete2(id));
      case Check(id) => PcLessens(w, After(id, false)); PcLessens(w, SchedModel.Run(id));
      case Run(id) => PcLessens(w, After(id, false));
    }
  }

  lemma BeginLessens(w: Worker, blocked: bool)
    requires w.pc.Begin?
    ensures WorkOf(OwnStep(w, blocked)) < WorkOf(w)
  {
  }

  lemma RebindLessens(w: Worker, id: nat, dead: bool, bound: bool)
    requires w.pc.After?
    ensures WorkOf(Rebind(w, id, dead, bound)) < WorkOf(w)
  {
  }

  lemma PcLessens(w: Worker, pc: Pc)
    requires Weight(pc) < Weight(w.pc)
    ensures WorkOf(w.(pc := pc)) < WorkOf(w)
  {
  }

  lemma DoneLessens(w: Worker, id: nat)
    requires w.pc.Complete?
    ensures w.done == 0 ==> WorkOf(w.(pc := Top, done := id)) < WorkOf(w)
  {
  }

  lemma TakenOver(s: Sys, i: nat)
    requires Astray(s) && s.owner == NONE && i < |s.ws|
    ensures WorkerStep(s, i, EAGER).Sys? ==> InHand(WorkerStep(s, i, EAGER).phase) == InHand(s.phase) == 0
    ensures WorkerStep(s, i, QUIET).Sys? ==> InHand(WorkerStep(s, i, QUIET).phase) == InHand(s.phase) == 0
  {
    hide Control, Owned, Budget, SchedBound.Bound, Awake, Strand, Traced, HasStray, Stopping, WorkerStep;
    FreeScheduler(s);
    if WorkerStep(s, i, EAGER).Sys? { IdleEffect(s, i, EAGER); }
    if WorkerStep(s, i, QUIET).Sys? { IdleEffect(s, i, QUIET); }
  }

  // On its way to the scheduler, with a finished job that is not collected.
  function WayToAcquire(w: Worker): nat {
    match w.pc
    case GetCas(job) => if w.ready == job then 1 else 4
    case Top => 3
    case Get => 2
    case CheckDone(_) => 1
    case _ => 0
  }

  lemma AcquireWay(w: Worker, p: Phase, j: nat, blocked: bool)
    requires GoodPc(w.pc) && GoodSleeper(w, p, j) && Held(w.pc).0 == 0 && !OwnerPc(w.pc) && !Stopper(w.pc)
    requires w.done != 0 && !w.term && !w.pc.Acquire? && !w.pc.GetCas?
    ensures var v := OwnStep(w, blocked);
      WorkOf(v) == WorkOf(w) && WayToAcquire(v) < WayToAcquire(w) && v.done == w.done && Held(v.pc).0 == 0
  {
  }

  // Worker j has a finished job in its slot, and steps.
  lemma DoneGoes(s: Sys, j: nat)
    requires Astray(s) && s.owner == NONE && j < |s.ws| && Held(s.ws[j].pc).0 == 0 && s.ws[j].done != 0
    ensures Allowed(s, j, EAGER)
    ensures var t := Step(s, j, EAGER);
      Nearer(t, s) ||
      (Astray(t) && Level(t, s) && j < |t.ws| && t.ws[j].done != 0 &&
       (t.phase == Collect(0, []) ||
        (t.owner == NONE && Held(t.ws[j].pc).0 == 0 && WayToAcquire(t.ws[j]) < WayToAcquire(s.ws[j]))))
  {
    hide Owned, Budget, SchedBound.Bound, Strand, HasStray, Stopping, Step, Signals, Works, WorkerStep, OwnStep;
    FreeScheduler(s);
    NotStopping(s, j);
    WorkerMove(s, j, EAGER);
    TakenOver(s, j);
    var w, t, v := s.ws[j], Step(s, j, EAGER), NextWorker(s, j, EAGER);
    AcquireTaken(s, j);
    if w.pc.GetCas? && w.ready == w.pc.job {
      Lessened(s, t, j, v);
    } else {
      if !w.pc.Acquire? && !w.pc.GetCas? { AcquireWay(w, s.phase, j, s.blocked); }
      Moved(s, t, j, v);
    }
  }

  lemma AcquireTaken(s: Sys, j: nat)
    requires s.Sys? && s.owner == NONE && s.phase == Off && j < |s.ws| && Held(s.ws[j].pc).0 == 0 && GoodPc(s.ws[j].pc)
    requires !Quits(s.ws[j].pc) && !OwnerPc(s.ws[j].pc)
    ensures WorkerStep(s, j, EAGER).Sys?
    ensures s.ws[j].pc.Acquire? ==> WorkerStep(s, j, EAGER).phase == Collect(0, [])
    ensures !s.ws[j].pc.Acquire? ==> WorkerStep(s, j, EAGER).owner == NONE
  {
  }

  lemma {:induction false} FetchScheduler(s: Sys, j: nat) returns (more: seq<Action>)
    requires Astray(s) && s.owner == NONE && j < |s.ws| && Held(s.ws[j].pc).0 == 0 && s.ws[j].done != 0
    ensures AllAllowed(s, more) && Unblocked(more)
    ensures var t := RunAll(s, more);
      Nearer(t, s) || (Astray(t) && Level(t, s) && t.phase == Collect(0, []) && j < |t.ws| && t.ws[j].done != 0)
    decreases WayToAcquire(s.ws[j])
  {
    hide Good, Step, Allowed, Lower, HasStray, Stopping, Held, Work, Signals;
    DoneGoes(s, j);
    var t := Step(s, j, EAGER);
    var rest := [];
    if t.Sys? && !Lower(t, s) && t.phase != Collect(0, []) {
      rest := FetchScheduler(t, j);
      if Nearer(RunAll(t, rest), t) { NearerAfter(RunAll(t, rest), t, s); }
    }
    Prepend(s, Action(j, EAGER), rest);
    more := [Action(j, EAGER)] + rest;
  }

  // The scheduler comes to a worker with a finished job.
  lemma CollectStepGoes(s: Sys, j: nat)
    requires Astray(s) && s.phase.Collect? && s.phase.k <= j < |s.ws| && s.ws[j].done != 0
    ensures 0 <= s.owner < |s.ws| && Allowed(s, s.owner, QUIET)
    ensures var t := Step(s, s.owner, QUIET);
      Nearer(t, s) || (Astray(t) && Level(t, s) && t.ws == s.ws && t.phase == Collect(s.phase.k + 1, s.phase.jobs) && s.phase.k < j)
  {
    hide Control, Owned, Budget, SchedBound.Bound, Awake, Strand, Traced, HasStray, Stopping, Signals, Works, Work;
    OwnerStep(s);
    CollectGoes(s);
  }

  lemma {:induction false} CollectTo(s: Sys, j: nat) returns (more: seq<Action>)
    requires Astray(s) && s.phase.Collect? && s.phase.k <= j < |s.ws| && s.ws[j].done != 0
    ensures AllAllowed(s, more) && Unblocked(more) && Nearer(RunAll(s, more), s)
    decreases j - s.phase.k
  {
    hide Good, Step, Allowed, Lower, HasStray, Stopping, Work, Signals;
    CollectStepGoes(s, j);
    var t := Step(s, s.owner, QUIET);
    var rest := [];
    if !Nearer(t, s) {
      rest := CollectTo(t, j);
      NearerAfter(RunAll(t, rest), t, s);
    }
    Prepend(s, Action(s.owner, QUIET), rest);
    more := [Action(s.owner, QUIET)] + rest;
  }

  // On its way to the job in its slot.
  function WayToGet(w: Worker): nat {
    match w.pc
    case GetCas(job) => if w.ready == job then 1 else 3
    case Get => 2
    case Top => 3
    case Lock => 4
    case Waiting => 4
    case Sleep => 5
    case Decide(_) => 6
    case CheckDone(_) => 7
    case Acquire(_) => 8
    case _ => 0
  }

  lemma GetWay(w: Worker, j: nat, blocked: bool)
    requires GoodPc(w.pc) && GoodSleeper(w, Off, j) && Held(w.pc).0 == 0 && !OwnerPc(w.pc) && !Stopper(w.pc)
    requires w.done == 0 && w.ready != 0 && !w.term && !w.pc.Acquire? && !w.pc.GetCas?
    ensures var v := OwnStep(w, blocked);
      WorkOf(v) == WorkOf(w) && WayToGet(v) < WayToGet(w) && v.done == 0 && v.ready == w.ready && Held(v.pc).0 == 0
  {
  }

  lemma ReadyNext(s: Sys, j: nat, e: Env)
    requires s.Sys? && j < |s.ws| && e == if s.ws[j].pc.Acquire? then QUIET else EAGER
    requires var w := s.ws[j];
      GoodPc(w.pc) && GoodSleeper(w, Off, j) && Held(w.pc).0 == 0 && !OwnerPc(w.pc) && !Stopper(w.pc) && !w.term &&
      w.done == 0 && w.ready != 0
    ensures var w, v := s.ws[j], NextWorker(s, j, e);
      if w.pc.GetCas? && w.ready == w.pc.job then WorkOf(v) < WorkOf(w)
      else WorkOf(v) == WorkOf(w) && WayToGet(v) < WayToGet(w) && v.done == 0 && v.ready != 0 && Held(v.pc).0 == 0
  {
    hide OwnStep;
    var w := s.ws[j];
    if !w.pc.Acquire? && !w.pc.GetCas? { GetWay(w, j, s.blocked); }
  }

  // Worker j has a job ready and nobody has the scheduler: j comes for it.
  lemma ReadyGoes(s: Sys, j: nat) returns (e: Env)
    requires Astray(s) && s.owner == NONE && j < |s.ws| && Held(s.ws[j].pc).0 == 0 && s.ws[j].done == 0 && s.ws[j].ready != 0
    ensures Allowed(s, j, e) && !e.flag
    ensures var t := Step(s, j, e);
      Nearer(t, s) ||
      (Astray(t) && Level(t, s) && t.owner == NONE && j < |t.ws| && t.ws[j].done == 0 && t.ws[j].ready != 0 &&
       Held(t.ws[j].pc).0 == 0 && WayToGet(t.ws[j]) < WayToGet(s.ws[j]))
  {
    hide Control, Owned, Budget, SchedBound.Bound, Strand, HasStray, Stopping, Step, Signals, Works, WorkerStep, NextWorker,
      WorkOf, WayToGet, Held;
    e := if s.ws[j].pc.Acquire? then QUIET else EAGER;
    Facts(s, j);
    FreeScheduler(s);
    NotStopping(s, j);
    WorkerMove(s, j, e);
    TakenOver(s, j);
    AcquireTaken(s, j);
    if s.ws[j].pc.Acquire? { NotAcquired(s, j); }
    ReadyNext(s, j, e);
    var w, t, v := s.ws[j], Step(s, j, e), NextWorker(s, j, e);
    if w.pc.GetCas? && w.ready == w.pc.job { Lessened(s, t, j, v); } else { Moved(s, t, j, v); }
  }

  lemma NotAcquired(s: Sys, j: nat)
    requires s.Sys? && s.owner == NONE && j < |s.ws| && s.ws[j].pc.Acquire?
    ensures WorkerStep(s, j, QUIET).Sys? && WorkerStep(s, j, QUIET).owner == NONE
  {
  }

  lemma {:induction false} FetchJob(s: Sys, j: nat) returns (more: seq<Action>)
    requires Astray(s) && s.owner == NONE && j < |s.ws| && Held(s.ws[j].pc).0 == 0 && s.ws[j].done == 0 && s.ws[j].ready != 0
    ensures AllAllowed(s, more) && Unblocked(more) && Nearer(RunAll(s, more), s)
    decreases WayToGet(s.ws[j])
  {
    hide Good, Step, Allowed, Lower, HasStray, Stopping, Held, Work, Signals;
    var e := ReadyGoes(s, j);
    var t := Step(s, j, e);
    var rest := [];
    if !Nearer(t, s) {
      rest := FetchJob(t, j);
      NearerAfter(RunAll(t, rest), t, s);
    }
    Prepend(s, Action(j, e), rest);
    more := [Action(j, e)] + rest;
  }

  // -------------------------------------------------------- something is left

  lemma Nowhere(s: Sys, x: nat, k: Kind)
    requires s.Sys? && Owned(s) && NoWork(s) && s.phase == Off && !Busy(s.ws) && x != 0
    ensures Expected(s.services, x, k) == 0
  {
    hide Engaged, Expected;
    NobodyHolds(s.ws, x, k);
    assert Total(s, x, k) == Expected(s.services, x, k);
  }

  // The stray is somewhere, so some worker is engaged.
  lemma SomethingLeft(s: Sys)
    requires Astray(s) && s.owner == NONE
    ensures Busy(s.ws)
  {
    hide Owned, Budget, SchedBound.Bound, Awake, Engaged, NoWork, Busy;
    FreeScheduler(s);
    if !Busy(s.ws) {
      var x :| x in s.services && s.services[x].loss != Intact;
      assert GoodService(s.services[x], |s.ws|);
      Nowhere(s, x, if s.services[x].loss == Requeued then Ready else Finished);
    }
  }

  // With the scheduler free, some run leaves less to do.
  lemma Advance(s: Sys) returns (more: seq<Action>)
    requires Astray(s) && s.owner == NONE
    ensures AllAllowed(s, more) && Unblocked(more) && Nearer(RunAll(s, more), s)
  {
    hide Astray, Step, Allowed, Held, Nearer, Work, Signals, RunAll;
    SysOf(s);
    SomethingLeft(s);
    var j :| 0 <= j < |s.ws| && Engaged(s.ws[j]);
    if Held(s.ws[j].pc).0 != 0 {
      HandGoes(s, j);
      Prepend(s, Action(j, EAGER), []);
      RunNone(Step(s, j, EAGER));
      more := [Action(j, EAGER)] + [];
    } else if s.ws[j].done != 0 {
      more := FetchScheduler(s, j);
      var t := RunAll(s, more);
      if !Nearer(t, s) {
        SysOf(t);
        var rest := CollectTo(t, j);
        NearerAfter(RunAll(t, rest), t, s);
        RunConcat(s, more, rest);
        more := more + rest;
      }
    } else {
      more := FetchJob(s, j);
    }
  }

  lemma RunNone(s: Sys)
    ensures RunAll(s, []) == s && AllAllowed(s, [])
  {
  }

  // From any state with a stray, no stolen job in hand and root not quitting,
  // there is a run that finds root's mailbox never full and ends in the
  // failed assertion.
  lemma {:induction false} Drain(s: Sys) returns (more: seq<Action>)
    requires Astray(s)
    ensures AllAllowed(s, more) && Unblocked(more) && RunAll(s, more).Broken?
    decreases |Signals(s.services)|, Work(s), if s.owner != NONE then 1 else 0
  {
    hide Good, Step, Allowed, HasStray, Stopping, Work, Signals;
    if s.owner != NONE { more := FinishRound(s); } else { more := Advance(s); }
    var t := RunAll(s, more);
    if t.Sys? {
      var rest := Drain(t);
      RunConcat(s, more, rest);
      more := more + rest;
    }
  }
}
