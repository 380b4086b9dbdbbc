// Runs put together from pieces. In all of them no compare-and-swap fails for
// no reason and every read of `busy` is right.
module SchedRuns {
  import opened SchedModel
  import opened SchedOwner
  import opened SchedBudget
  import opened SchedEffect
  import opened SchedTheorem

  // thread_worker sets `busy` when it has taken a job and clears it when the
  // job is over.
  predicate IsBusy(pc: Pc) {
    pc.Check? || pc.Run? || pc.After?
  }

  // What the step of the owner reads of `busy` is what it is.
  predicate ReadsBusy(s: Sys, e: Env)
    requires s.Sys?
  {
    match s.phase
    case Pending(k, _, _) => k < |s.ws| ==> e.flag == IsBusy(s.ws[k].pc)
    case Assign(k, _, _, prep) => prep != [] && k < |s.ws| ==> e.flag == !IsBusy(s.ws[k].pc)
    case _ => true
  }

  predicate Honest(s: Sys, i: nat, e: Env) {
    Allowed(s, i, e) && !e.fail && (s.Sys? && s.phase != Off && s.owner == i ==> ReadsBusy(s, e))
  }

  predicate AllHonest(s: Sys, actions: seq<Action>)
    decreases |actions|
  {
    actions != [] ==>
      Honest(s, actions[0].worker, actions[0].env) &&
      AllHonest(Step(s, actions[0].worker, actions[0].env), actions[1..])
  }

  lemma {:induction false} HonestIsAllowed(s: Sys, actions: seq<Action>)
    requires AllHonest(s, actions)
    ensures AllAllowed(s, actions)
    decreases |actions|
  {
    hide Step, Allowed;
    if actions != [] { HonestIsAllowed(Step(s, actions[0].worker, actions[0].env), actions[1..]); }
  }

  // A run from s to t.
  ghost predicate Leads(s: Sys, run: seq<Action>, t: Sys) {
    AllHonest(s, run) && RunAll(s, run) == t
  }

  lemma {:induction false} HonestConcat(s: Sys, xs: seq<Action>, ys: seq<Action>)
    requires AllHonest(s, xs) && AllHonest(RunAll(s, xs), ys)
    ensures AllHonest(s, xs + ys)
    decreases |xs|
  {
    hide Step, Honest;
    if xs == [] {
      assert xs + ys == ys;
    } else {
      assert (xs + ys)[0] == xs[0] && (xs + ys)[1..] == xs[1..] + ys;
      HonestConcat(Step(s, xs[0].worker, xs[0].env), xs[1..], ys);
    }
  }

  lemma Join(s: Sys, xs: seq<Action>, t: Sys, ys: seq<Action>, u: Sys)
    requires Leads(s, xs, t) && Leads(t, ys, u)
    ensures Leads(s, xs + ys, u)
  {
    hide AllHonest, RunAll;
    HonestConcat(s, xs, ys);
    RunConcat(s, xs, ys);
  }

  // One more step.
  lemma Do(s: Sys, run: seq<Action>, t: Sys, i: nat, e: Env, u: Sys) returns (more: seq<Action>)
    requires Leads(s, run, t) && Honest(t, i, e) && Step(t, i, e) == u
    ensures Leads(s, more, u)
  {
    hide Step, Honest;
    var a := Action(i, e);
    One(t, a);
    more := run + [a];
    Join(s, run, t, [a], u);
  }

  lemma One(s: Sys, a: Action)
    requires Honest(s, a.worker, a.env)
    ensures Leads(s, [a], Step(s, a.worker, a.env))
  {
    hide Step, Honest;
    assert [a][1..] == [] && [a][0] == a;
    None(Step(s, a.worker, a.env));
  }

  lemma None(s: Sys)
    ensures Leads(s, [], s)
  {
  }

  const PLAIN := Env(false, false, NoMessage, Yield)
  const FLAGGED := Env(false, true, NoMessage, Yield)

  // -------------------------------------------------------- a worker's pieces

  // Worker i as v, all else as in s.
  function As(s: Sys, i: nat, v: Worker): Sys
    requires s.Sys? && i < |s.ws|
  {
    s.(ws := s.ws[i := v])
  }

  lemma AsItIs(s: Sys, i: nat)
    requires s.Sys? && i < |s.ws|
    ensures As(s, i, s.ws[i]) == s
  {
    assert s.ws[i := s.ws[i]] == s.ws;
  }

  lemma AsAgain(s: Sys, i: nat, v: Worker, w: Worker)
    requires s.Sys? && i < |s.ws|
    ensures As(As(s, i, v), i, w) == As(s, i, w)
  {
    assert s.ws[i := v][i := w] == s.ws[i := w];
  }

  // A step of a worker on its own.
  lemma OwnDo(s: Sys, run: seq<Action>, i: nat, v: Worker) returns (more: seq<Action>, w: Worker)
    requires s.Sys? && i < |s.ws| && s.phase == Off && OwnPc(v.pc) && Leads(s, run, As(s, i, v))
    ensures w == OwnStep(v, s.blocked) && Leads(s, more, As(s, i, w))
  {
    hide Leads, OwnStep;
    w := OwnStep(v, s.blocked);
    AsAgain(s, i, v, w);
    more := Do(s, run, As(s, i, v), i, PLAIN, As(s, i, w));
  }

  // No job, nobody in the scheduler: the worker enters it.
  lemma Enter(s: Sys, i: nat) returns (run: seq<Action>, t: Sys)
    requires s.Sys? && i < |s.ws| && s.owner == NONE && s.phase == Off
    requires s.ws[i].pc == Top && !s.ws[i].term && s.ws[i].ready == 0
    ensures t == s.(ws := s.ws[i := s.ws[i].(pc := Serve(true))], owner := i, started := true, phase := Collect(0, []))
    ensures Leads(s, run, t)
  {
    hide Leads, As;
    None(s);
    AsItIs(s, i);
    var w;
    run, w := OwnDo(s, [], i, s.ws[i]);
    run, w := OwnDo(s, run, i, w);
    t := s.(ws := s.ws[i := s.ws[i].(pc := Serve(true))], owner := i, started := true, phase := Collect(0, []));
    EnterIs(s, i, w, t);
    run := Do(s, run, As(s, i, w), i, PLAIN, t);
  }

  lemma EnterIs(s: Sys, i: nat, w: Worker, t: Sys)
    requires s.Sys? && i < |s.ws| && s.owner == NONE && s.phase == Off && w == s.ws[i].(pc := Acquire(true))
    requires t == s.(ws := s.ws[i := s.ws[i].(pc := Serve(true))], owner := i, started := true, phase := Collect(0, []))
    ensures Step(As(s, i, w), i, PLAIN) == t && Honest(As(s, i, w), i, PLAIN)
  {
    hide WorkerStep;
    AcquireIs(As(s, i, w), i, PLAIN);
    assert As(s, i, w).ws[i := t.ws[i]] == t.ws;
  }

  // The job in the slot is taken.
  lemma Take(s: Sys, i: nat) returns (run: seq<Action>, t: Sys)
    requires s.Sys? && i < |s.ws| && s.phase == Off && s.ws[i].pc == Top && !s.ws[i].term && s.ws[i].ready != 0
    ensures t == s.(ws := s.ws[i := s.ws[i].(pc := Begin(s.ws[i].ready), ready := 0)])
    ensures Leads(s, run, t)
  {
    hide Leads;
    None(s);
    AsItIs(s, i);
    var w;
    run, w := OwnDo(s, [], i, s.ws[i]);
    run, w := OwnDo(s, run, i, w);
    var v := s.ws[i].(pc := Begin(s.ws[i].ready), ready := 0);
    AsAgain(s, i, w, v);
    t := As(s, i, v);
    run := Do(s, run, As(s, i, w), i, PLAIN, t);
  }

  // The service begins to run.
  lemma Begins(s: Sys, i: nat) returns (run: seq<Action>, t: Sys)
    requires s.Sys? && i < |s.ws| && s.phase == Off && s.ws[i].pc.Begin? && StatusOf(s.services, s.ws[i].pc.id) == Schedule
    ensures var id := s.ws[i].pc.id;
      t == s.(ws := s.ws[i := s.ws[i].(pc := SchedModel.Run(id))], services := SetStatus(s.services, id, Running))
    ensures Leads(s, run, t)
  {
    hide Leads;
    None(s);
    var w, id := s.ws[i], s.ws[i].pc.id;
    var u := s.(ws := s.ws[i := w.(pc := Check(id))]);
    run := Do(s, [], s, i, PLAIN, u);
    t := s.(ws := s.ws[i := w.(pc := SchedModel.Run(id))], services := SetStatus(s.services, id, Running));
    assert u.ws[i := t.ws[i]] == t.ws;
    run := Do(s, run, u, i, PLAIN, t);
  }

  // Its worker publishes it.
  lemma Publishes(s: Sys, i: nat) returns (run: seq<Action>, t: Sys)
    requires s.Sys? && i < |s.ws| && s.phase == Off && s.ws[i].pc.After? && s.ws[i].done == 0
    ensures var w, id := s.ws[i], s.ws[i].pc.id;
      t == s.(ws := s.ws[i := Rebind(w, id, w.pc.dead, BindingOf(s.services, id) == i).(pc := Top, done := id)])
    ensures Leads(s, run, t)
  {
    hide Leads, Rebind, BindingOf;
    None(s);
    var w, id := s.ws[i], s.ws[i].pc.id;
    var v := Rebind(w, id, w.pc.dead, BindingOf(s.services, id) == i);
    Rebound(w, id, w.pc.dead, BindingOf(s.services, id) == i);
    var u := s.(ws := s.ws[i := v]);
    run := Do(s, [], s, i, PLAIN, u);
    t := s.(ws := s.ws[i := v.(pc := Top, done := id)]);
    assert u.ws[i := t.ws[i]] == t.ws;
    run := Do(s, run, u, i, PLAIN, t);
  }

  lemma Rebound(w: Worker, id: nat, dead: bool, bound: bool)
    ensures var v := Rebind(w, id, dead, bound); v.pc == Complete(id) && v.done == w.done
  {
  }

  // It yields, and its worker publishes it.
  lemma Yields(s: Sys, i: nat) returns (run: seq<Action>, t: Sys)
    requires s.Sys? && i < |s.ws| && s.phase == Off && s.ws[i].pc.Run? && s.ws[i].done == 0 && s.ws[i].pc.id in s.services
    ensures var w, id := s.ws[i], s.ws[i].pc.id;
      t == s.(ws := s.ws[i := w.(pc := Top, done := id, binding := if s.services[id].binding == i then id else w.binding)],
              services := SetStatus(s.services, id, Done))
    ensures Leads(s, run, t)
  {
    hide Leads;
    None(s);
    var w, id := s.ws[i], s.ws[i].pc.id;
    var u := s.(ws := s.ws[i := w.(pc := After(id, false))], services := SetStatus(s.services, id, Done));
    var first := Do(s, [], s, i, PLAIN, u);
    run, t := Publishes(u, i);
    Join(s, first, u, run, t);
    run := first + run;
  }

  // ----------------------------------------------------- the scheduler's pieces

  lemma {:induction false} CollectSweep(s: Sys) returns (run: seq<Action>, t: Sys)
    requires s.Sys? && 0 <= s.owner < |s.ws| && s.phase.Collect? && s.phase.k <= |s.ws|
    requires forall j | s.phase.k <= j < |s.ws| :: s.ws[j].done == 0
    ensures t == s.(phase := Route(s.phase.jobs)) && Leads(s, run, t)
    decreases |s.ws| - s.phase.k
  {
    hide Leads;
    None(s);
    var Collect(k, jobs) := s.phase;
    if k == |s.ws| {
      t := s.(phase := Route(jobs));
      run := Do(s, [], s, s.owner, PLAIN, t);
    } else {
      var u := s.(phase := Collect(k + 1, jobs));
      var first := Do(s, [], s, s.owner, PLAIN, u);
      run, t := CollectSweep(u);
      Join(s, first, u, run, t);
      run := first + run;
    }
  }

  // Nobody is busy, nothing is stolen.
  lemma {:induction false} PendingSweep(s: Sys) returns (run: seq<Action>, t: Sys)
    requires s.Sys? && 0 <= s.owner < |s.ws| && s.phase.Pending? && s.phase.k <= |s.ws|
    requires forall j | s.phase.k <= j < |s.ws| :: !IsBusy(s.ws[j].pc)
    ensures t == s.(phase := Count(0, 0, s.phase.jobs, s.phase.from)) && Leads(s, run, t)
    decreases |s.ws| - s.phase.k
  {
    hide Leads;
    None(s);
    var Pending(k, jobs, from) := s.phase;
    if k == |s.ws| {
      t := s.(phase := Count(0, 0, jobs, from));
      run := Do(s, [], s, s.owner, PLAIN, t);
    } else {
      var u := s.(phase := Pending(k + 1, jobs, from));
      var first := Do(s, [], s, s.owner, PLAIN, u);
      run, t := PendingSweep(u);
      Join(s, first, u, run, t);
      run := first + run;
    }
  }

  // No worker waits with a binding queue.
  lemma {:induction false} CountSweep(s: Sys) returns (run: seq<Action>, t: Sys)
    requires s.Sys? && 0 <= s.owner < |s.ws| && s.phase.Count? && s.phase.k <= |s.ws|
    requires forall j | s.phase.k <= j < |s.ws| :: s.ws[j].ready != 0 || s.ws[j].queue == []
    ensures var free := s.phase.free + Empties(s.ws, s.phase.k);
      t == if free < |s.phase.jobs| then Aborted else s.(phase := Prepare(free - |s.phase.jobs|, s.phase.jobs))
    ensures Leads(s, run, t)
    decreases |s.ws| - s.phase.k
  {
    hide Leads;
    None(s);
    var Count(k, free, jobs, from) := s.phase;
    if k == |s.ws| {
      t := if free < |jobs| then Aborted else s.(phase := Prepare(free - |jobs|, jobs));
      run := Do(s, [], s, s.owner, PLAIN, t);
    } else {
      var u := s.(phase := Count(k + 1, free + If(Empty(s.ws[k])), jobs, from));
      var first := Do(s, [], s, s.owner, PLAIN, u);
      run, t := CountSweep(u);
      Join(s, first, u, run, t);
      run := first + run;
    }
  }

  // Steps 1 to 3 of a round that finds nothing finished and nobody busy.
  lemma Front(s: Sys) returns (run: seq<Action>, t: Sys)
    requires s.Sys? && 0 <= s.owner < |s.ws| && s.phase == Collect(0, [])
    requires forall j | 0 <= j < |s.ws| :: s.ws[j].done == 0 && !IsBusy(s.ws[j].pc)
    ensures t == s.(phase := Count(0, 0, [], [])) && Leads(s, run, t)
  {
    hide Leads;
    var u;
    run, u := CollectSweep(s);
    var v := s.(phase := Pending(0, [], []));
    run := Do(s, run, u, s.owner, PLAIN, v);
    var rest;
    rest, t := PendingSweep(v);
    Join(s, run, v, rest, t);
    run := run + rest;
  }

  // Step 1 of a round that finds the owner's job finished, and no other.
  lemma {:induction false} CollectOwn(s: Sys) returns (run: seq<Action>, t: Sys)
    requires s.Sys? && 0 <= s.owner < |s.ws| && s.phase.Collect? && s.phase.k <= s.owner && s.phase.jobs == []
    requires s.ws[s.owner].done != 0 && forall j | 0 <= j < |s.ws| && j != s.owner :: s.ws[j].done == 0
    ensures t == s.(ws := s.ws[s.owner := s.ws[s.owner].(done := 0)], phase := Route([s.ws[s.owner].done]))
    ensures Leads(s, run, t)
    decreases |s.ws| - s.phase.k
  {
    hide Leads;
    None(s);
    var k, i := s.phase.k, s.owner;
    if k == i {
      var u := s.(ws := s.ws[i := s.ws[i].(done := 0)], phase := Collect(k + 1, [s.ws[i].done]));
      assert [] + [s.ws[i].done] == [s.ws[i].done];
      var first := Do(s, [], s, i, PLAIN, u);
      run, t := CollectSweep(u);
      Join(s, first, u, run, t);
      run := first + run;
    } else {
      var u := s.(phase := Collect(k + 1, []));
      var first := Do(s, [], s, i, PLAIN, u);
      run, t := CollectOwn(u);
      Join(s, first, u, run, t);
      run := first + run;
    }
  }

  // Steps 1 to 3 of a round of a worker that has just published its service,
  // which has nothing to say and no message.
  lemma FrontOwn(s: Sys) returns (run: seq<Action>, t: Sys)
    requires s.Sys? && 0 <= s.owner < |s.ws| && s.phase == Collect(0, []) && s.ws[s.owner].done != 0
    requires forall j | 0 <= j < |s.ws| :: !IsBusy(s.ws[j].pc) && (j != s.owner ==> s.ws[j].done == 0)
    requires StatusOf(s.services, s.ws[s.owner].done) == Done
    ensures t == s.(ws := s.ws[s.owner := s.ws[s.owner].(done := 0)], phase := Count(0, 0, [], []),
                    services := SetStatus(s.services, s.ws[s.owner].done, Idle))
    ensures Leads(s, run, t)
  {
    hide Leads;
    var i, id := s.owner, s.ws[s.owner].done;
    run, t := CollectOwn(s);
    var u := t.(phase := Settle([id]));
    run := Do(s, run, t, i, PLAIN, u);
    var v := t.(phase := Route([]), services := SetStatus(s.services, id, Idle));
    assert [id][1..] == [];
    run := Do(s, run, u, i, PLAIN, v);
    var x := v.(phase := Pending(0, [], []));
    run := Do(s, run, v, i, PLAIN, x);
    var rest;
    rest, t := PendingSweep(x);
    Join(s, run, x, rest, t);
    run := run + rest;
  }

  // Step 6 passes m workers that have a job, or run bound services.
  lemma {:induction false} Skip(s: Sys, m: nat) returns (run: seq<Action>, t: Sys)
    requires s.Sys? && 0 <= s.owner < |s.ws| && s.phase.Assign? && s.phase.prep != [] && s.phase.k + m <= |s.ws|
    requires forall j | s.phase.k <= j < s.phase.k + m :: s.ws[j].ready != 0 || (s.ws[j].binding != 0 && !s.phase.bound)
    ensures t == s.(phase := Assign(s.phase.k + m, s.phase.busy, s.phase.bound, s.phase.prep)) && Leads(s, run, t)
    decreases m
  {
    hide Leads;
    None(s);
    run, t := [], s;
    if m > 0 {
      var Assign(k, busy, bound, prep) := s.phase;
      var u := s.(phase := Assign(k + 1, busy, bound, prep));
      var first := Do(s, [], s, s.owner, if IsBusy(s.ws[k].pc) then PLAIN else FLAGGED, u);
      run, t := Skip(u, m - 1);
      Join(s, first, u, run, t);
      run := first + run;
    }
  }

  // ... and begins its next sweep.
  lemma NextSweep(s: Sys) returns (run: seq<Action>, t: Sys)
    requires s.Sys? && 0 <= s.owner < |s.ws| && s.phase.Assign? && s.phase.prep != [] && s.phase.k <= |s.ws|
    requires !s.phase.bound && forall j | s.phase.k <= j < |s.ws| :: s.ws[j].ready != 0 || s.ws[j].binding != 0
    ensures t == s.(phase := Assign(0, true, s.phase.busy, s.phase.prep)) && Leads(s, run, t)
  {
    hide Leads;
    var u;
    run, u := Skip(s, |s.ws| - s.phase.k);
    t := s.(phase := Assign(0, true, s.phase.busy, s.phase.prep));
    run := Do(s, run, u, s.owner, PLAIN, t);
  }

  // It gives the next service to worker k.
  lemma Give(s: Sys) returns (run: seq<Action>, t: Sys)
    requires s.Sys? && 0 <= s.owner < |s.ws| && s.phase.Assign? && s.phase.prep != [] && s.phase.k < |s.ws|
    requires var w := s.ws[s.phase.k];
      Empty(w) && !IsBusy(w.pc) && !w.pc.Locked? && (w.binding == 0 || s.phase.bound)
    ensures var Assign(k, busy, bound, prep) := s.phase;
      t == s.(ws := s.ws[k := Wake(s.ws[k].(ready := prep[0]))], phase := Assign(k + 1, busy, bound, prep[1..]))
    ensures Leads(s, run, t)
  {
    hide Leads;
    None(s);
    var Assign(k, busy, bound, prep) := s.phase;
    var w := s.ws[k].(ready := prep[0]);
    var u := s.(ws := s.ws[k := w], phase := AssignWake(k, busy, bound, prep[1..]));
    run := Do(s, [], s, s.owner, FLAGGED, u);
    t := s.(ws := s.ws[k := Wake(w)], phase := Assign(k + 1, busy, bound, prep[1..]));
    assert u.ws[k := Wake(w)] == t.ws;
    run := Do(s, run, u, s.owner, PLAIN, t);
  }

  // The end of a round, up to the release; `keep` says that some service is
  // still blocked.
  lemma Ends(s: Sys, keep: bool) returns (run: seq<Action>, t: Sys)
    requires s.Sys? && 0 <= s.owner < |s.ws| && s.phase.Assign? && s.phase.prep == [] && s.ws[s.owner].pc == Serve(true)
    requires s.ws[s.owner].ready != 0 || s.ws[s.owner].binding != 0
    ensures var w := s.ws[s.owner];
      t == s.(ws := s.ws[s.owner := w.(pc := CheckDone(w.ready == 0))], phase := Off, owner := NONE, blocked := s.blocked && keep)
    ensures Leads(s, run, t)
  {
    hide Leads;
    None(s);
    var u := s.(phase := Trigger);
    run := Do(s, [], s, s.owner, PLAIN, u);
    t := s.(phase := HasJob, blocked := s.blocked && keep);
    run := Do(s, run, u, s.owner, if keep then FLAGGED else PLAIN, t);
    var more;
    more, u := Releases(t);
    Join(s, run, t, more, u);
    run, t := run + more, u;
  }

  lemma Releases(s: Sys) returns (run: seq<Action>, t: Sys)
    requires s.Sys? && 0 <= s.owner < |s.ws| && s.phase.HasJob? && s.ws[s.owner].pc == Serve(true)
    requires s.ws[s.owner].ready != 0 || s.ws[s.owner].binding != 0
    ensures var w := s.ws[s.owner];
      t == s.(ws := s.ws[s.owner := w.(pc := CheckDone(w.ready == 0))], phase := Off, owner := NONE)
    ensures Leads(s, run, t)
  {
    hide Leads;
    None(s);
    var i, w := s.owner, s.ws[s.owner];
    var u := s.(phase := Release(w.ready == 0));
    run := Do(s, [], s, i, PLAIN, u);
    t := s.(ws := s.ws[i := w.(pc := CheckDone(w.ready == 0))], phase := Off, owner := NONE);
    run := Do(s, run, u, i, PLAIN, t);
  }

  // The worker has got a job and begins its loop again.
  lemma Again(s: Sys, i: nat) returns (run: seq<Action>, t: Sys)
    requires s.Sys? && i < |s.ws| && s.phase == Off && s.ws[i].pc == CheckDone(false) && s.ws[i].done == 0
    ensures t == s.(ws := s.ws[i := s.ws[i].(pc := Top)]) && Leads(s, run, t)
  {
    hide Leads;
    None(s);
    AsItIs(s, i);
    var w;
    run, w := OwnDo(s, [], i, s.ws[i]);
    run, w := OwnDo(s, run, i, w);
    t := As(s, i, w);
  }

  // It has got none, but was woken since it last slept.
  lemma Dozes(s: Sys, i: nat) returns (run: seq<Action>, t: Sys)
    requires s.Sys? && i < |s.ws| && s.phase == Off && s.ws[i].pc == CheckDone(true) && !s.blocked
    requires s.ws[i].done == 0 && s.ws[i].ready == 0 && s.ws[i].wakeup && !s.ws[i].term && !s.ws[i].flag
    ensures t == s.(ws := s.ws[i := s.ws[i].(pc := Top, wakeup := false)]) && Leads(s, run, t)
  {
    hide Leads, As, OwnStep;
    None(s);
    AsItIs(s, i);
    DozeSteps(s.ws[i]);
    var w;
    run, w := OwnDo(s, [], i, s.ws[i]);
    run, w := OwnDo(s, run, i, w);
    run, w := OwnDo(s, run, i, w);
    run, w := OwnDo(s, run, i, w);
    run, w := OwnDo(s, run, i, w);
    t := AsIs(s, i, w);
  }

  lemma AsIs(s: Sys, i: nat, w: Worker) returns (t: Sys)
    requires s.Sys? && i < |s.ws|
    ensures t == As(s, i, w) && t == s.(ws := s.ws[i := w])
  {
    t := As(s, i, w);
  }

  lemma DozeSteps(w: Worker)
    requires w.pc == CheckDone(true) && w.done == 0 && w.ready == 0 && w.wakeup && !w.term && !w.flag
    ensures OwnStep(w, false) == w.(pc := Decide(true)) && OwnStep(w.(pc := Decide(true)), false) == w.(pc := Sleep)
    ensures OwnStep(w.(pc := Sleep), false) == w.(pc := Lock) && OwnStep(w.(pc := Lock), false) == w.(pc := Locked)
    ensures OwnStep(w.(pc := Locked), false) == w.(pc := Top, wakeup := false)
  {
  }

  lemma SetTwice(m: Services, id: nat, a: Status, b: Status)
    ensures SetStatus(SetStatus(m, id, a), id, b) == SetStatus(m, id, b)
  {
    if id in m { assert m[id := m[id].(status := a)][id := m[id].(status := b)] == m[id := m[id].(status := b)]; }
  }

  // A worker takes its job, runs it to a yield, finds nothing more to do, and
  // owns the scheduler with its service settled.
  lemma Serves(s0: Sys, before: seq<Action>, s: Sys, i: nat) returns (run: seq<Action>, t: Sys)
    requires Leads(s0, before, s) && s.Sys? && i < |s.ws| && s.owner == NONE && s.phase == Off && s.started
    requires var w := s.ws[i];
      w.pc == Top && !w.term && w.ready in s.services && s.services[w.ready].status == Schedule && w.ready != 0
    requires forall j | 0 <= j < |s.ws| :: s.ws[j].done == 0 && (j != i ==> !IsBusy(s.ws[j].pc))
    ensures var w := s.ws[i];
      var v := w.(pc := Serve(true), ready := 0, binding := if s.services[w.ready].binding == i then w.ready else w.binding);
      t == s.(ws := s.ws[i := v], owner := i, phase := Count(0, 0, [], []), services := SetStatus(s.services, w.ready, Idle))
    ensures Leads(s0, run, t)
  {
    hide Leads;
    var w, id, m := s.ws[i], s.ws[i].ready, s.services;
    var more, u := Take(s, i);
    Join(s0, before, s, more, u);
    run := before + more;
    more, t := Begins(u, i);
    Join(s0, run, u, more, t);
    run := run + more;
    more, u := Yields(t, i);
    Join(s0, run, t, more, u);
    run := run + more;
    more, t := Enter(u, i);
    Join(s0, run, u, more, t);
    run := run + more;
    more, u := FrontOwn(t);
    Join(s0, run, t, more, u);
    run := run + more;
    SetTwice(m, id, Running, Done);
    SetTwice(m, id, Done, Idle);
    t := s.(ws := s.ws[i := u.ws[i]], owner := i, phase := Count(0, 0, [], []), services := SetStatus(m, id, Idle));
    assert u.ws == t.ws;
  }
}
