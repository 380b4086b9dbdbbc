// The n:m scheduler as interleaved steps (src/ltask.c, src/worker.h,
// src/cond.h, and the service status of src/service.c).
//
// Every worker has a program counter. The worker that owns the scheduler runs
// its phases; all other workers may take steps of theirs between any two of
// these. Each atomic load, store and compare-and-swap of a shared slot is a
// step of its own, and a compare-and-swap may fail spuriously.
module SchedModel {

  const ROOT := 1
  const BINDING_SERVICE_QUEUE := 16
  const NONE := -1

  datatype Status = Uninitialized | Idle | Schedule | Running | Done | Dead

  // What became of a death signal that found root's mailbox full: its service
  // was put back in the queue without it, and then taken from there.
  datatype Loss = Intact | Requeued | Rerun

  // `signal`: a dead service whose death is not yet reported to root. `loss`
  // is kept by the model alone; no step looks at it.
  datatype Service = Service(status: Status, signal: bool, loss: Loss, binding: int)

  type Services = map<nat, Service>

  // thread_worker, and the functions it calls
  datatype Pc =
    | Top                       // for (;;), before term_signal is read
    | Get                       // worker_get_job: load service_ready
    | GetCas(job: nat)          //   ... and swap it for 0
    | Begin(id: nat)            // the job is taken
    | Check(id: nat)            // service_status_get
    | Run(id: nat)              // service_resume
    | After(id: nat, dead: bool)
    | Complete(id: nat)         // while (worker_complete_job)
    | AcquireFor(id: nat)       // acquire_scheduler, to complete
    | Complete2(id: nat)        // scheduler owned, second try
    | Redo(id: nat)             // schedule_dispatch, before the last tries
    | Complete3(id: nat)
    | Serve(idle: bool)         // schedule_dispatch_worker, then release
    | Acquire(nojob: bool)      // acquire_scheduler, without a job
    | CheckDone(nojob: bool)    // while (w->service_done)
    | Decide(nojob: bool)       // if (nojob && !blocked_service)
    | Sleep                     // worker_sleep: term_signal
    | Lock                      //   take the lock, worker_has_job
    | Locked                    //   lock held, wakeup not yet read
    | Waiting                   //   cond_wait
    | QuitAll(k: nat)           // root quit: term_signal of worker k
    | WakeAll(k: nat)           //   worker_wakeup of worker k
    | Exited

  // schedule_dispatch, then the rest of schedule_dispatch_worker. `jobs` and
  // `prep` are what is left of the local array, `from` the workers robbed.
  datatype Phase =
    | Off
    | Collect(k: nat, jobs: seq<nat>)
    | Route(jobs: seq<nat>)
    | Settle(jobs: seq<nat>)
    | Pending(k: nat, jobs: seq<nat>, from: seq<nat>)
    | PendingCas(k: nat, job: nat, jobs: seq<nat>, from: seq<nat>)
    | Count(k: nat, free: nat, jobs: seq<nat>, from: seq<nat>)
    | CountWake(k: nat, free: nat, jobs: seq<nat>, from: seq<nat>)
    | Prepare(left: nat, prep: seq<nat>)
    | PrepareWake(k: nat, left: nat, prep: seq<nat>)
    | Assign(k: nat, busy: bool, bound: bool, prep: seq<nat>)
    | AssignWake(k: nat, busy: bool, bound: bool, prep: seq<nat>)
    | Trigger
    | HasJob
    | OwnSteal(k: nat)
    | OwnCas(k: nat, job: nat)
    | OwnStore(job: nat)
    | Release(nojob: bool)

  // struct worker_thread. `binding` is 0 or the service bound here.
  datatype Worker = Worker(
    pc: Pc, ready: nat, done: nat, binding: nat, queue: seq<nat>,
    term: bool, sleeping: bool, wakeup: bool, flag: bool)

  // Broken: an assertion failed. Aborted: the one at the end of step 4 of
  // schedule_dispatch did.
  datatype Sys =
    | Broken
    | Aborted
    | Sys(ws: seq<Worker>, owner: int, phase: Phase, schedule: seq<nat>, services: Services,
          blocked: bool, started: bool, size: nat)

  // What the message of a finished service is about.
  datatype Message = NoMessage | To(to: nat) | New(id: nat) | Delete(id: nat)

  // What a running service does next.
  datatype Event = Yield | Exit | Bind(worker: int) | Init(id: nat, worker: int) | Discard(id: nat) | Compute

  // Everything one step leaves open: whether a compare-and-swap fails, what
  // the plain field `busy` or a mailbox held, what the service did.
  datatype Env = Env(fail: bool, flag: bool, message: Message, event: Event)

  // ---------------------------------------------------------------- services

  function StatusOf(m: Services, id: nat): Status {
    if id in m then m[id].status else Dead
  }

  function BindingOf(m: Services, id: nat): int {
    if id in m then m[id].binding else -1
  }

  function SetStatus(m: Services, id: nat, status: Status): Services {
    if id in m then m[id := m[id].(status := status)] else m
  }

  function SetLoss(m: Services, id: nat, loss: Loss): Services {
    if id in m then m[id := m[id].(loss := loss)] else m
  }

  function SetBinding(m: Services, id: nat, worker: int): Services {
    if id in m then m[id := m[id].(binding := worker)] else m
  }

  // ------------------------------------------------------------- small steps

  function With(s: Sys, k: nat, w: Worker): (t: Sys)
    requires s.Sys? && k < |s.ws|
    ensures t.Sys?
  {
    s.(ws := s.ws[k := w])
  }

  // The scheduler changes worker k and goes on with `phase`.
  function Slot(s: Sys, k: nat, w: Worker, phase: Phase): (t: Sys)
    requires s.Sys? && k < |s.ws|
    ensures t.Sys?
  {
    s.(ws := s.ws[k := w], phase := phase)
  }

  function Goto(s: Sys, k: nat, pc: Pc): (t: Sys)
    requires s.Sys? && k < |s.ws|
    ensures t.Sys?
  {
    With(s, k, s.ws[k].(pc := pc))
  }

  // schedule_back; the queue holds size - 1 values
  function Back(s: Sys, id: nat): Sys
    requires s.Sys?
  {
    if |s.schedule| + 1 >= s.size then Broken else s.(schedule := s.schedule + [id])
  }

  // check_message_to
  function CheckTo(s: Sys, to: nat): Sys
    requires s.Sys?
  {
    if StatusOf(s.services, to) == Idle then Back(s.(services := SetStatus(s.services, to, Schedule)), to) else s
  }

  // worker_wakeup
  function Wake(w: Worker): Worker {
    w.(wakeup := true, flag := w.sleeping)
  }

  // The head of the binding queue becomes the worker's job.
  function TakeBound(w: Worker): Worker
    requires w.queue != []
  {
    w.(ready := w.queue[0], queue := w.queue[1..])
  }

  // ----------------------------------------------------------- worker steps

  // Steps that only touch the worker's own fields: the head of the loop, the
  // way to sleep, and worker_sleep with its lock.
  function OwnStep(w: Worker, blocked: bool): Worker {
    match w.pc
    case Top => if w.term then Leave(w) else w.(pc := Get)
    case Get => w.(pc := if w.ready == 0 then Acquire(true) else GetCas(w.ready))
    case Begin(id) => w.(pc := Check(id))
    case CheckDone(nojob) => w.(pc := if w.done != 0 then Acquire(nojob) else Decide(nojob))
    case Decide(nojob) => w.(pc := if nojob && !blocked then Sleep else Top)
    case Sleep => w.(pc := if w.term then Top else Lock)
    case Lock => if w.ready != 0 then w.(pc := Top, wakeup := false, flag := false) else w.(pc := Locked)
    case Locked =>
      if w.wakeup then w.(pc := Top, wakeup := false, flag := false) else w.(pc := Waiting, sleeping := true)
    case Waiting => if w.flag then w.(pc := Top, sleeping := false, flag := false) else w
    case _ => w
  }

  // Between the end of a job and its publication: the worker's own binding.
  function Rebind(w: Worker, id: nat, dead: bool, bound: bool): Worker {
    w.(pc := Complete(id),
       binding := if dead then (if w.binding == id then 0 else w.binding) else if bound then id else w.binding)
  }

  function WorkerStep(s: Sys, i: nat, e: Env): Sys
    requires s.Sys? && i < |s.ws|
  {
    var w := s.ws[i];
    match w.pc
    case GetCas(job) =>
      With(s, i, if w.ready == job && !e.fail then w.(pc := Begin(job), ready := 0) else w.(pc := Get))
    case Check(id) => CheckJob(s, i, id)
    case Run(id) => RunStep(s, i, id, e.event)
    case After(id, dead) => With(s, i, Rebind(w, id, dead, BindingOf(s.services, id) == i))
    case Complete(id) => CompleteStep(s, i, id, e.fail, Top, AcquireFor(id))
    case AcquireFor(id) => AcquireStep(s, i, e.fail, Complete2(id), Complete(id))
    case Complete2(id) => Dispatch(CompleteStep(s, i, id, e.fail, Serve(false), Redo(id)))
    case Complete3(id) => DispatchIfServing(CompleteStep(s, i, id, e.fail, Serve(false), Complete3(id)), i)
    case Acquire(nojob) => DispatchIfServing(AcquireStep(s, i, e.fail, Serve(true), CheckDone(nojob)), i)
    case QuitAll(k) => if k < |s.ws| then Quit(s, i, k) else Goto(s, i, WakeAll(0))
    case WakeAll(k) => if k < |s.ws| then WakeStep(s, i, k) else With(s, i, Leave(w))
    case _ => With(s, i, OwnStep(w, s.blocked))
  }

  // service_status_get, and the assertion before the service runs
  function CheckJob(s: Sys, i: nat, id: nat): Sys
    requires s.Sys? && i < |s.ws|
  {
    var status := StatusOf(s.services, id);
    if status == Dead then Goto(s.(services := SetLoss(s.services, id, Rerun)), i, After(id, false))
    else if status != Schedule then Broken
    else Goto(s.(services := SetStatus(s.services, id, Running)), i, Run(id))
  }

  // worker_quit
  function Leave(w: Worker): Worker {
    w.(pc := Exited, sleeping := false, flag := false)
  }

  // wakeup_all_workers, one worker
  function WakeStep(s: Sys, i: nat, k: nat): Sys
    requires s.Sys? && i < |s.ws| && k < |s.ws|
  {
    if s.ws[k].pc.Locked? then s else Goto(With(s, k, Wake(s.ws[k])), i, WakeAll(k + 1))
  }

  function DispatchIfServing(s: Sys, i: nat): Sys
    requires s.Sys? && i < |s.ws|
  {
    if s.ws[i].pc.Serve? then Dispatch(s) else s
  }

  // quit_all_workers, one worker
  function Quit(s: Sys, i: nat, k: nat): Sys
    requires s.Sys? && i < |s.ws| && k < |s.ws|
  {
    Goto(With(s, k, s.ws[k].(term := true)), i, QuitAll(k + 1))
  }

  // worker_complete_job
  function CompleteStep(s: Sys, i: nat, id: nat, fail: bool, yes: Pc, no: Pc): (t: Sys)
    requires s.Sys? && i < |s.ws|
    ensures t.Sys? && |t.ws| == |s.ws| && t.phase == s.phase
  {
    var w := s.ws[i];
    if w.done == 0 && !fail then With(s, i, w.(pc := yes, done := id)) else Goto(s, i, no)
  }

  // acquire_scheduler
  function AcquireStep(s: Sys, i: nat, fail: bool, yes: Pc, no: Pc): (t: Sys)
    requires s.Sys? && i < |s.ws|
    ensures t.Sys? && |t.ws| == |s.ws| && t.phase == s.phase
  {
    if s.owner == NONE && !fail then Goto(s.(owner := i, started := true), i, yes) else Goto(s, i, no)
  }

  // schedule_dispatch is entered
  function Dispatch(s: Sys): Sys
    requires s.Sys?
  {
    s.(phase := Collect(0, []))
  }

  // service_resume: the service does something, yields or quits
  function RunStep(s: Sys, i: nat, id: nat, event: Event): Sys
    requires s.Sys? && i < |s.ws|
  {
    var m := s.services;
    match event
    case Compute => s
    case Yield => Goto(s.(services := SetStatus(m, id, Done)), i, After(id, false))
    case Exit =>
      var dead := SetStatus(m, id, Dead);
      if id == ROOT then Goto(s.(services := dead), i, QuitAll(0))
      else Goto(s.(services := if id in m then dead[id := dead[id].(signal := true)] else dead), i, After(id, true))
    case Bind(b) => s.(services := SetBinding(m, id, b))
    case Init(x, b) => s.(services := SetStatus(SetBinding(m, x, b), x, Idle))
    case Discard(x) => s.(services := m - {x})
  }

  // -------------------------------------------------------- scheduler steps

  function SchedulerStep(s: Sys, e: Env): Sys
    requires s.Sys? && 0 <= s.owner < |s.ws|
  {
    match s.phase
    case Off => s
    case Collect(k, jobs) => CollectStep(s, k, jobs)
    case Route(jobs) => if jobs == [] then s.(phase := Pending(0, [], [])) else RouteStep(s, jobs, e)
    case Settle(jobs) => if jobs == [] then Broken else SettleStep(s, jobs, e.flag)
    case Pending(k, jobs, from) => PendingStep(s, k, jobs, from, e.flag)
    case PendingCas(k, job, jobs, from) => PendingCasStep(s, k, job, jobs, from, e.fail)
    case Count(k, free, jobs, from) => CountStep(s, k, free, jobs, from)
    case CountWake(k, free, jobs, from) => WakeThen(s, k, Count(k + 1, free, jobs, from))
    case Prepare(left, prep) =>
      if left == 0 || s.schedule == [] then s.(phase := Assign(0, false, false, prep))
      else PrepareStep(s.(schedule := s.schedule[1..]), s.schedule[0], left, prep)
    case PrepareWake(k, left, prep) => WakeThen(s, k, Prepare(left, prep))
    case Assign(k, busy, bound, prep) => AssignStep(s, k, busy, bound, prep, e.flag)
    case AssignWake(k, busy, bound, prep) => WakeThen(s, k, Assign(k + 1, busy, bound, prep))
    case Trigger => TriggerStep(s, e.flag)
    case HasJob => HasJobStep(s)
    case OwnSteal(k) => OwnStealStep(s, k)
    case OwnCas(k, job) => OwnCasStep(s, k, job, e.fail)
    case OwnStore(job) => Slot(s, s.owner, s.ws[s.owner].(ready := job), Release(false))
    case Release(nojob) => ReleaseStep(s, nojob)
  }

  // step 1, collect_done_job: worker k
  function CollectStep(s: Sys, k: nat, jobs: seq<nat>): Sys
    requires s.Sys?
  {
    if k >= |s.ws| then s.(phase := Route(jobs))
    else if s.ws[k].done == 0 then s.(phase := Collect(k + 1, jobs))
    else Slot(s, k, s.ws[k].(done := 0), Collect(k + 1, jobs + [s.ws[k].done]))
  }

  // step 4, count_freeslot: worker k
  function CountStep(s: Sys, k: nat, free: nat, jobs: seq<nat>, from: seq<nat>): Sys
    requires s.Sys?
  {
    if k >= |s.ws| then
      if free < |jobs| then Aborted else s.(phase := Prepare(free - |jobs|, jobs))
    else if s.ws[k].ready != 0 then s.(phase := Count(k + 1, free, jobs, from))
    else if s.ws[k].queue == [] then s.(phase := Count(k + 1, free + 1, jobs, from))
    else s.(ws := s.ws[k := TakeBound(s.ws[k])], phase := CountWake(k, free, jobs, from), blocked := true)
  }

  // worker_wakeup, once the lock is free
  function WakeThen(s: Sys, k: nat, phase: Phase): Sys
    requires s.Sys?
  {
    if k >= |s.ws| || s.ws[k].pc.Locked? then s else Slot(s, k, Wake(s.ws[k]), phase)
  }

  // step 7, trigger_blocked_workers, and the end of schedule_dispatch
  function TriggerStep(s: Sys, flag: bool): Sys
    requires s.Sys? && 0 <= s.owner < |s.ws|
  {
    var t := s.(blocked := s.blocked && flag);
    if s.ws[s.owner].pc.Redo? then Goto(t, s.owner, Complete3(s.ws[s.owner].pc.id)).(phase := Off)
    else t.(phase := HasJob)
  }

  // schedule_dispatch_worker after schedule_dispatch
  function HasJobStep(s: Sys): Sys
    requires s.Sys? && 0 <= s.owner < |s.ws|
  {
    var w := s.ws[s.owner];
    s.(phase := if w.ready != 0 then Release(false) else if w.binding != 0 then Release(true) else OwnSteal(0))
  }

  function OwnStealStep(s: Sys, k: nat): Sys
    requires s.Sys?
  {
    if k >= |s.ws| then s.(phase := Release(true))
    else if s.ws[k].ready != 0 && BindingOf(s.services, s.ws[k].ready) != k then s.(phase := OwnCas(k, s.ws[k].ready))
    else s.(phase := OwnSteal(k + 1))
  }

  function ReleaseStep(s: Sys, nojob: bool): Sys
    requires s.Sys? && 0 <= s.owner < |s.ws|
  {
    var w := s.ws[s.owner];
    Goto(s, s.owner, if w.pc.Serve? && w.pc.idle then CheckDone(nojob) else Top).(phase := Off, owner := NONE)
  }

  // step 3, get_pending_jobs: worker k, if it is busy
  function PendingStep(s: Sys, k: nat, jobs: seq<nat>, from: seq<nat>, busy: bool): Sys
    requires s.Sys?
  {
    if k >= |s.ws| then s.(phase := Count(0, 0, jobs, from))
    else if busy && s.ws[k].ready != 0 && BindingOf(s.services, s.ws[k].ready) != k then
      s.(phase := PendingCas(k, s.ws[k].ready, jobs, from))
    else s.(phase := Pending(k + 1, jobs, from))
  }

  function PendingCasStep(s: Sys, k: nat, job: nat, jobs: seq<nat>, from: seq<nat>, fail: bool): Sys
    requires s.Sys?
  {
    if k < |s.ws| && s.ws[k].ready == job && !fail then
      Slot(s, k, s.ws[k].(ready := 0), Pending(k + 1, jobs + [job], from + [k]))
    else s.(phase := Pending(k + 1, jobs, from))
  }

  function OwnCasStep(s: Sys, k: nat, job: nat, fail: bool): Sys
    requires s.Sys?
  {
    if k < |s.ws| && s.ws[k].ready == job && !fail then Slot(s, k, s.ws[k].(ready := 0), OwnStore(job))
    else s.(phase := OwnSteal(k + 1))
  }

  // step 6, assign_prepare_task: one try of the inner loop
  function AssignStep(s: Sys, k: nat, busy: bool, bound: bool, prep: seq<nat>, notBusy: bool): Sys
    requires s.Sys?
  {
    if prep == [] then s.(phase := Trigger)
    else if k >= |s.ws| then
      if !busy then s.(phase := Assign(0, true, bound, prep))
      else if bound then Broken
      else s.(phase := Assign(0, true, true, prep))
    else if (busy || notBusy) && (s.ws[k].binding == 0 || bound) && s.ws[k].ready == 0 then
      if s.ws[k].queue != [] then Slot(s, k, TakeBound(s.ws[k]), AssignWake(k, busy, bound, prep))
      else Slot(s, k, s.ws[k].(ready := prep[0]), AssignWake(k, busy, bound, prep[1..]))
    else s.(phase := Assign(k + 1, busy, bound, prep))
  }

  // step 2, dispath_out_messages: one finished service, its death signal or its message
  function RouteStep(s: Sys, jobs: seq<nat>, e: Env): Sys
    requires s.Sys? && jobs != []
  {
    var id := jobs[0];
    if StatusOf(s.services, id) == Dead then
      if id !in s.services || !s.services[id].signal then Broken
      else if StatusOf(s.services, ROOT) == Dead then
        s.(services := s.services - {id}, phase := Route(jobs[1..]))
      else
        var m := s.services[id := s.services[id].(signal := false)];
        if e.flag then BackRoute(s.(services := SetLoss(m, id, Requeued)), id, Route(jobs[1..]))   // root is blocked
        else CheckRoute(s.(services := m), ROOT, Route(jobs[1..]))
    else match e.message
      case NoMessage => s.(phase := Settle(jobs))
      case To(to) => CheckRoute(s, to, Settle(jobs))
      case New(x) => s.(services := s.services[x := Service(Uninitialized, false, Intact, -1)], phase := Settle(jobs))
      case Delete(x) => s.(services := s.services - {x}, phase := Settle(jobs))
  }

  function BackRoute(s: Sys, id: nat, phase: Phase): Sys
    requires s.Sys?
  {
    var t := Back(s, id);
    if t.Sys? then t.(phase := phase) else t
  }

  function CheckRoute(s: Sys, to: nat, phase: Phase): Sys
    requires s.Sys?
  {
    var t := CheckTo(s, to);
    if t.Sys? then t.(phase := phase) else t
  }

  // The status of a finished service: back in the queue, or idle.
  function SettleStep(s: Sys, jobs: seq<nat>, hasMessage: bool): Sys
    requires s.Sys? && jobs != []
  {
    var id := jobs[0];
    if StatusOf(s.services, id) != Done then Broken
    else if hasMessage then
      BackRoute(s.(services := SetStatus(s.services, id, Schedule)), id, Route(jobs[1..]))
    else s.(services := SetStatus(s.services, id, Idle), phase := Route(jobs[1..]))
  }

  // step 5, prepare_task: one job taken from the schedule queue, `left` is free_slot - i
  function PrepareStep(s: Sys, job: nat, left: nat, prep: seq<nat>): Sys
    requires s.Sys? && left > 0
  {
    var b := BindingOf(s.services, job);
    if b < 0 then s.(phase := Prepare(left - 1, prep + [job]))
    else if b >= |s.ws| then Broken
    else if |s.ws[b].queue| >= BINDING_SERVICE_QUEUE then
      s.(schedule := s.schedule + [job], phase := Prepare(left - 1, prep))
    else
      var w := s.ws[b].(queue := s.ws[b].queue + [job]);
      if w.ready != 0 then Slot(s, b, w, Prepare(left - 1, prep))
      else s.(ws := s.ws[b := TakeBound(w)], phase := PrepareWake(b, if left >= 2 then left - 2 else 0, prep), blocked := true)
  }

  // ------------------------------------------------------------------- runs

  // The next step of worker i: of the scheduler, when i is in the middle of it.
  function Step(s: Sys, i: nat, e: Env): Sys {
    if !s.Sys? || i >= |s.ws| then s
    else if s.phase != Off && s.owner == i then SchedulerStep(s, e)
    else WorkerStep(s, i, e)
  }

  // What the model expects of the services and of root.
  predicate Allowed(s: Sys, i: nat, e: Env) {
    s.Sys? && i < |s.ws| ==>
      if s.phase != Off && s.owner == i then AllowedRoute(s, e)
      else s.ws[i].pc.Run? ==> AllowedEvent(s, s.ws[i].pc.id, e.event)
  }

  // Only root creates and deletes services: the first while there is room, the
  // second only when nobody can run them any more.
  predicate AllowedRoute(s: Sys, e: Env)
    requires s.Sys?
  {
    s.phase.Route? && s.phase.jobs != [] && StatusOf(s.services, s.phase.jobs[0]) != Dead ==>
      match e.message
        case New(x) => s.phase.jobs[0] == ROOT && x != 0 && x !in s.services && |s.services| + 1 < s.size
        case Delete(x) => s.phase.jobs[0] == ROOT && Removable(s.services, x)
        case _ => true
  }

  // Never initialised, or dead and known to root to be so.
  predicate Removable(m: Services, x: nat) {
    x in m ==> m[x].status == Uninitialized || (m[x].status == Dead && !m[x].signal && m[x].loss == Intact)
  }

  predicate AllowedEvent(s: Sys, id: nat, event: Event)
    requires s.Sys?
  {
    match event
    case Bind(b) => -1 <= b < |s.ws|
    case Init(x, b) => id == ROOT && x in s.services && s.services[x].status == Uninitialized && -1 <= b < |s.ws|
    case Discard(x) => id == ROOT && Removable(s.services, x)
    case _ => true
  }

  datatype Action = Action(worker: nat, env: Env)

  function RunAll(s: Sys, actions: seq<Action>): Sys
    decreases |actions|
  {
    if actions == [] then s else RunAll(Step(s, actions[0].worker, actions[0].env), actions[1..])
  }

  predicate AllAllowed(s: Sys, actions: seq<Action>)
    decreases |actions|
  {
    actions != [] ==>
      Allowed(s, actions[0].worker, actions[0].env) &&
      AllAllowed(Step(s, actions[0].worker, actions[0].env), actions[1..])
  }

  // ltask_run: every worker is about to start; what bootstrap scheduled waits.
  ghost predicate Start(s: Sys) {
    && s.Sys? && s.ws != [] && s.owner == NONE && s.phase == Off && !s.blocked && !s.started
    && (forall w | w in s.ws :: w == Worker(Top, 0, 0, 0, [], false, false, false, false))
    && 0 !in s.services && |s.services| < s.size
    && (forall x | x in s.services ::
          s.services[x].status in {Uninitialized, Idle, Schedule} && !s.services[x].signal && s.services[x].loss == Intact)
    && (forall x | x in s.services :: -1 <= s.services[x].binding < |s.ws|)
    && (forall x :: x in s.schedule <==> StatusOf(s.services, x) == Schedule)
    && (forall i, j | 0 <= i < j < |s.schedule| :: s.schedule[i] != s.schedule[j])
  }
}
