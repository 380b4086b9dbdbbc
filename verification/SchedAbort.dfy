// A run at whose end the assertion free_slot >= job_n fails. Three workers and
// seven services, two of them bound: worker 0 is running service 2 with service
// 5 in its slot and service 7 in its binding queue, the other two have a job
// each, and a fourth round steals service 5, finds no slot for it, and aborts.
module SchedAbort {
  import opened SchedModel
  import opened SchedOwner
  import opened SchedBudget
  import opened SchedTheorem
  import opened SchedRuns

  function Fresh(binding: int): Service {
    Service(Schedule, false, Intact, binding)
  }

  function Cell(pc: Pc, ready: nat, binding: nat, queue: seq<nat>, wakeup: bool): Worker {
    Worker(pc, ready, 0, binding, queue, false, false, wakeup, false)
  }

  function Three(a: Worker, b: Worker, c: Worker, owner: int, phase: Phase, q: seq<nat>, m: Services, blocked: bool): Sys {
    Sys([a, b, c], owner, phase, q, m, blocked, true, 16)
  }

  // The services of the example: 4 is bound to worker 1, 7 to worker 0.
  const POOL: Services := map x: nat | 2 <= x <= 8 :: Fresh(if x == 4 then 1 else if x == 7 then 0 else -1)
  const WAITING: seq<nat> := seq(7, i => i + 2)
  const FIRST := Sys([NEW, NEW, NEW], NONE, Off, WAITING, POOL, false, false, 16)

  const HOLDS2 := Cell(Begin(2), 0, 0, [], true)
  const COMING := Cell(Acquire(true), 3, 0, [], true)

  // What each round leaves.
  const AFTER1 := Three(Cell(Top, 2, 0, [], true), Cell(CheckDone(false), 4, 0, [], true), COMING, NONE, Off, WAITING[3..], POOL, true)

  lemma PoolOf(x: nat)
    ensures x in POOL <==> 2 <= x <= 8
    ensures x in POOL ==> POOL[x] == Fresh(if x == 4 then 1 else if x == 7 then 0 else -1)
  {
  }

  lemma PoolSize()
    ensures |POOL| == 7
  {
    assert POOL.Keys == {2, 3, 4, 5, 6, 7, 8};
    assert |POOL| == |POOL.Keys|;
  }

  lemma WaitingOf(x: nat)
    ensures x in WAITING <==> 2 <= x <= 8
    ensures x < 7 ==> WAITING[x] == x + 2 && WAITING[x..][0] == x + 2 && WAITING[x..][1..] == WAITING[x + 1..]
  {
    if 2 <= x <= 8 { assert WAITING[x - 2] == x; }
  }

  lemma Distinct(i: nat, j: nat)
    requires i < j < 7
    ensures WAITING[i] != WAITING[j]
  {
  }

  const POOL2 := SetStatus(POOL, 4, Idle)
  const POOL3 := SetStatus(POOL2, 6, Idle)
  const AFTER2 := Three(Cell(Begin(2), 5, 0, [], true), Cell(CheckDone(false), 6, 4, [], true), COMING, NONE, Off, WAITING[5..],
    POOL2, false)
  const AFTER3 := Three(Cell(Begin(2), 5, 0, [7], true), Cell(Top, 0, 4, [], false), COMING, NONE, Off, WAITING[6..], POOL3, false)
  const AFTER4 := Three(Cell(Begin(2), 5, 0, [7], true), Cell(CheckDone(false), 8, 4, [], true), COMING, NONE, Off, WAITING[7..],
    POOL3, false)

  lemma FirstIsStart()
    ensures Start(FIRST)
  {
    hide POOL, Fresh, WAITING;
    PoolSize();
    FreshIs();
    forall x: nat
      ensures x in POOL <==> 2 <= x <= 8
      ensures x in POOL ==> POOL[x] == Fresh(if x == 4 then 1 else if x == 7 then 0 else -1)
      ensures x in WAITING <==> 2 <= x <= 8
    {
      PoolOf(x);
      WaitingOf(x);
    }
    WaitingSize();
    forall i, j | 0 <= i < j < 7 ensures WAITING[i] != WAITING[j] { Distinct(i, j); }
  }

  lemma WaitingSize()
    ensures |WAITING| == 7
  {
  }

  lemma FreshIs()
    ensures forall b: int :: Fresh(b) == Service(Schedule, false, Intact, b)
  {
  }

  // Workers 2 and 1 find no job; worker 1 gets the scheduler.
  lemma Enters() returns (run: seq<Action>, t: Sys)
    ensures Leads(FIRST, run, t)
    ensures t == Three(NEW, Cell(Serve(true), 0, 0, [], false), Cell(Acquire(true), 0, 0, [], false), 1, Count(0, 0, [], []),
                       WAITING, POOL, false)
  {
    hide Leads, POOL, WAITING;
    None(FIRST);
    var a := FIRST.(ws := [NEW, NEW, NEW.(pc := Get)]);
    run := Do(FIRST, [], FIRST, 2, PLAIN, a);
    var b := FIRST.(ws := [NEW, NEW, NEW.(pc := Acquire(true))]);
    run := Do(FIRST, run, a, 2, PLAIN, b);
    var more, u := Enter(b, 1);
    Join(FIRST, run, b, more, u);
    run := run + more;
    more, t := Front(u);
    Join(FIRST, run, u, more, t);
    run := run + more;
  }

  lemma ThreeEmpties(a: Worker, b: Worker, c: Worker)
    ensures Empties([a, b, c], 0) == If(Empty(a)) + If(Empty(b)) + If(Empty(c))
  {
    var ws := [a, b, c];
    assert Empties(ws, 3) == 0 && Empties(ws, 2) == If(Empty(c)) && Empties(ws, 1) == If(Empty(b)) + If(Empty(c));
  }

  // Step 4: two or more of the workers can take a job.
  lemma Counts(s0: Sys, run: seq<Action>, s: Sys, free: nat) returns (more: seq<Action>, t: Sys)
    requires Leads(s0, run, s) && s.Sys? && |s.ws| == 3 && 0 <= s.owner < 3 && s.phase == Count(0, 0, [], [])
    requires forall j | 0 <= j < 3 :: s.ws[j].ready != 0 || s.ws[j].queue == []
    requires free == If(Empty(s.ws[0])) + If(Empty(s.ws[1])) + If(Empty(s.ws[2]))
    ensures t == s.(phase := Prepare(free, [])) && Leads(s0, more, t)
  {
    hide Leads;
    assert s.ws == [s.ws[0], s.ws[1], s.ws[2]];
    ThreeEmpties(s.ws[0], s.ws[1], s.ws[2]);
    more, t := CountSweep(s);
    Join(s0, run, s, more, t);
    more := run + more;
  }

  // Step 5: an unbound service is prepared.
  lemma PrepareFree(s0: Sys, run: seq<Action>, s: Sys) returns (more: seq<Action>, t: Sys)
    requires Leads(s0, run, s) && s.Sys? && 0 <= s.owner < |s.ws| && s.phase.Prepare? && s.phase.left > 0
    requires s.schedule != [] && BindingOf(s.services, s.schedule[0]) < 0
    ensures t == s.(schedule := s.schedule[1..], phase := Prepare(s.phase.left - 1, s.phase.prep + [s.schedule[0]]))
    ensures Leads(s0, more, t)
  {
    hide Leads, BindingOf;
    t := s.(schedule := s.schedule[1..], phase := Prepare(s.phase.left - 1, s.phase.prep + [s.schedule[0]]));
    more := Do(s0, run, s, s.owner, PLAIN, t);
  }

  // Step 5 is over.
  lemma Prepared(s0: Sys, run: seq<Action>, s: Sys) returns (more: seq<Action>, t: Sys)
    requires Leads(s0, run, s) && s.Sys? && 0 <= s.owner < |s.ws| && s.phase.Prepare?
    requires s.phase.left == 0 || s.schedule == []
    ensures t == s.(phase := Assign(0, false, false, s.phase.prep)) && Leads(s0, more, t)
  {
    hide Leads;
    t := s.(phase := Assign(0, false, false, s.phase.prep));
    more := Do(s0, run, s, s.owner, PLAIN, t);
  }

  // Step 5: a bound service goes to its worker, which has nothing ...
  lemma PrepareReady(s0: Sys, run: seq<Action>, s: Sys, b: nat) returns (more: seq<Action>, t: Sys)
    requires Leads(s0, run, s) && s.Sys? && 0 <= s.owner < |s.ws| && s.phase.Prepare? && s.phase.left > 0
    requires s.schedule != [] && b < |s.ws| && BindingOf(s.services, s.schedule[0]) == b
    requires s.ws[b].ready == 0 && s.ws[b].queue == [] && !s.ws[b].pc.Locked?
    ensures var left := s.phase.left;
      t == s.(ws := s.ws[b := Wake(s.ws[b].(ready := s.schedule[0]))], schedule := s.schedule[1..], blocked := true,
              phase := Prepare(if left >= 2 then left - 2 else 0, s.phase.prep))
    ensures Leads(s0, more, t)
  {
    hide Leads, BindingOf;
    var left, job, w := s.phase.left, s.schedule[0], s.ws[b];
    var rest := if left >= 2 then left - 2 else 0;
    Alone(w, job);
    var u := s.(ws := s.ws[b := w.(ready := job)], schedule := s.schedule[1..], blocked := true,
                phase := PrepareWake(b, rest, s.phase.prep));
    more := Do(s0, run, s, s.owner, PLAIN, u);
    t := u.(ws := s.ws[b := Wake(w.(ready := job))], phase := Prepare(rest, s.phase.prep));
    WakesAt(u, b, t);
    more := Do(s0, more, u, s.owner, PLAIN, t);
  }

  lemma Alone(w: Worker, job: nat)
    requires w.ready == 0 && w.queue == []
    ensures TakeBound(w.(queue := w.queue + [job])) == w.(ready := job)
  {
  }

  lemma WakesAt(u: Sys, b: nat, t: Sys)
    requires u.Sys? && t.Sys? && 0 <= u.owner < |u.ws| && b < |u.ws| && !u.ws[b].pc.Locked?
    requires u.phase.PrepareWake? && u.phase.k == b && |t.ws| == |u.ws|
    requires t == u.(ws := t.ws, phase := Prepare(u.phase.left, u.phase.prep)) && t.ws[b] == Wake(u.ws[b])
    requires forall j | 0 <= j < |u.ws| && j != b :: t.ws[j] == u.ws[j]
    ensures Step(u, u.owner, PLAIN) == t && Honest(u, u.owner, PLAIN)
  {
    assert u.ws[b := Wake(u.ws[b])] == t.ws;
  }

  // ... or to its binding queue.
  lemma PrepareQueued(s0: Sys, run: seq<Action>, s: Sys, b: nat) returns (more: seq<Action>, t: Sys)
    requires Leads(s0, run, s) && s.Sys? && 0 <= s.owner < |s.ws| && s.phase.Prepare? && s.phase.left > 0
    requires s.schedule != [] && b < |s.ws| && BindingOf(s.services, s.schedule[0]) == b
    requires s.ws[b].ready != 0 && |s.ws[b].queue| < BINDING_SERVICE_QUEUE
    ensures t == s.(ws := s.ws[b := s.ws[b].(queue := s.ws[b].queue + [s.schedule[0]])], schedule := s.schedule[1..],
                    phase := Prepare(s.phase.left - 1, s.phase.prep))
    ensures Leads(s0, more, t)
  {
    hide Leads, BindingOf;
    t := s.(ws := s.ws[b := s.ws[b].(queue := s.ws[b].queue + [s.schedule[0]])], schedule := s.schedule[1..],
            phase := Prepare(s.phase.left - 1, s.phase.prep));
    more := Do(s0, run, s, s.owner, PLAIN, t);
  }

  // Round 1: service 2 to worker 0, 3 to worker 2, and 4, which is bound, to
  // worker 1.
  lemma Prepares1() returns (run: seq<Action>, t: Sys)
    ensures t == Three(NEW, Cell(Serve(true), 4, 0, [], true), Cell(Acquire(true), 0, 0, [], false), 1,
                       Assign(0, false, false, [2, 3]), WAITING[3..], POOL, true)
    ensures Leads(FIRST, run, t)
  {
    hide Leads, POOL, WAITING;
    PoolOf(2); PoolOf(3); PoolOf(4);
    WaitingOf(0); WaitingOf(1); WaitingOf(2); WaitingSize();
    assert WAITING[0..] == WAITING;
    run, t := Enters();
    run, t := Counts(FIRST, run, t, 3);
    run, t := PrepareFree(FIRST, run, t);
    run, t := PrepareFree(FIRST, run, t);
    run, t := PrepareReady(FIRST, run, t, 1);
    run, t := Prepared(FIRST, run, t);
    assert t.ws == [NEW, Cell(Serve(true), 4, 0, [], true), Cell(Acquire(true), 0, 0, [], false)];
    assert t.phase.prep == [2, 3];
  }

  lemma Round1() returns (run: seq<Action>)
    ensures Leads(FIRST, run, AFTER1)
  {
    hide Leads, POOL, WAITING;
    var t, u, more;
    run, t := Prepares1();
    more, u := Give(t);
    Join(FIRST, run, t, more, u);
    run := run + more;
    more, t := Skip(u, 1);
    Join(FIRST, run, u, more, t);
    run := run + more;
    more, u := Give(t);
    Join(FIRST, run, t, more, u);
    run := run + more;
    more, t := Ends(u, true);
    Join(FIRST, run, u, more, t);
    run := run + more;
    assert t.ws == AFTER1.ws;
  }

  // What the later rounds need to know of the services.
  lemma PoolsOf(x: nat)
    requires 2 <= x <= 8
    ensures x in POOL2 && x in POOL3
    ensures POOL2[x].binding == POOL3[x].binding == POOL[x].binding
    ensures x != 4 ==> POOL2[x].status == Schedule
    ensures x != 4 && x != 6 ==> POOL3[x].status == Schedule
  {
    PoolOf(x);
  }

  // Round 2: worker 0 has taken service 2; worker 1 runs service 4 and is
  // bound to it from now on. Service 5 goes to worker 0, 6 to worker 1 in the
  // last sweep.
  lemma Prepares2() returns (run: seq<Action>, t: Sys)
    ensures t == Three(HOLDS2, Cell(Serve(true), 0, 4, [], true), COMING, 1, Assign(0, false, false, [5, 6]), WAITING[5..], POOL2, true)
    ensures Leads(FIRST, run, t)
  {
    hide Leads, POOL, WAITING;
    PoolOf(4); PoolOf(5); PoolOf(6); PoolsOf(5); PoolsOf(6);
    WaitingOf(3); WaitingOf(4); WaitingSize();
    run := Round1();
    var more, u := Take(AFTER1, 0);
    Join(FIRST, run, AFTER1, more, u);
    run := run + more;
    more, t := Again(u, 1);
    Join(FIRST, run, u, more, t);
    run := run + more;
    assert t.ws == [HOLDS2, Cell(Top, 4, 0, [], true), COMING];
    run, t := Serves(FIRST, run, t, 1);
    run, t := Counts(FIRST, run, t, 2);
    run, t := PrepareFree(FIRST, run, t);
    run, t := PrepareFree(FIRST, run, t);
    run, t := Prepared(FIRST, run, t);
    assert t.ws == [HOLDS2, Cell(Serve(true), 0, 4, [], true), COMING];
    assert t.phase.prep == [5, 6];
  }

  lemma Round2() returns (run: seq<Action>)
    ensures Leads(FIRST, run, AFTER2)
  {
    hide Leads, POOL, WAITING;
    var t, u, more;
    run, t := Prepares2();
    more, u := Give(t);
    Join(FIRST, run, t, more, u);
    run := run + more;
    more, t := NextSweep(u);
    Join(FIRST, run, u, more, t);
    run := run + more;
    more, u := NextSweep(t);
    Join(FIRST, run, t, more, u);
    run := run + more;
    more, t := Skip(u, 1);
    Join(FIRST, run, u, more, t);
    run := run + more;
    more, u := Give(t);
    Join(FIRST, run, t, more, u);
    run := run + more;
    more, t := Ends(u, false);
    Join(FIRST, run, u, more, t);
    run := run + more;
    assert t.ws == AFTER2.ws;
  }

  // Round 3: service 7 goes to the binding queue of worker 0, and worker 1
  // goes round by way of worker_sleep.
  lemma Prepares3() returns (run: seq<Action>, t: Sys)
    ensures t == Three(Cell(Begin(2), 5, 0, [7], true), Cell(Serve(true), 0, 4, [], true), COMING, 1,
                       Assign(0, false, false, []), WAITING[6..], POOL3, false)
    ensures Leads(FIRST, run, t)
  {
    hide Leads, POOL, WAITING, POOL2;
    PoolOf(6); PoolOf(7); PoolsOf(6); PoolsOf(7);
    WaitingOf(5); WaitingSize();
    run := Round2();
    var more;
    more, t := Again(AFTER2, 1);
    Join(FIRST, run, AFTER2, more, t);
    run := run + more;
    assert t.ws == [Cell(Begin(2), 5, 0, [], true), Cell(Top, 6, 4, [], true), COMING];
    run, t := Serves(FIRST, run, t, 1);
    run, t := Counts(FIRST, run, t, 1);
    run, t := PrepareQueued(FIRST, run, t, 0);
    run, t := Prepared(FIRST, run, t);
    assert t.ws[0].queue == [7];
    assert t.ws == [Cell(Begin(2), 5, 0, [7], true), Cell(Serve(true), 0, 4, [], true), COMING];
  }

  lemma Round3() returns (run: seq<Action>)
    ensures Leads(FIRST, run, AFTER3)
  {
    hide Leads, POOL, WAITING, POOL3;
    var t, u, more;
    run, t := Prepares3();
    more, u := Ends(t, false);
    Join(FIRST, run, t, more, u);
    run := run + more;
    more, t := Dozes(u, 1);
    Join(FIRST, run, u, more, t);
    run := run + more;
    assert t.ws == AFTER3.ws;
  }

  // Round 4: service 8 goes to worker 1.
  lemma Prepares4() returns (run: seq<Action>, t: Sys)
    ensures t == Three(Cell(Begin(2), 5, 0, [7], true), Cell(Serve(true), 0, 4, [], false), COMING, 1,
                       Assign(0, false, false, [8]), WAITING[7..], POOL3, false)
    ensures Leads(FIRST, run, t)
  {
    hide Leads, POOL, WAITING, POOL3;
    PoolOf(8); PoolsOf(8);
    WaitingOf(6); WaitingSize();
    run := Round3();
    var more, u := Enter(AFTER3, 1);
    Join(FIRST, run, AFTER3, more, u);
    run := run + more;
    more, t := Front(u);
    Join(FIRST, run, u, more, t);
    run := run + more;
    run, t := Counts(FIRST, run, t, 1);
    run, t := PrepareFree(FIRST, run, t);
    run, t := Prepared(FIRST, run, t);
    assert t.ws == [Cell(Begin(2), 5, 0, [7], true), Cell(Serve(true), 0, 4, [], false), COMING];
    assert t.phase.prep == [8];
  }

  lemma Round4() returns (run: seq<Action>)
    ensures Leads(FIRST, run, AFTER4)
  {
    hide Leads, POOL, WAITING, POOL3;
    var t, u, more;
    run, t := Prepares4();
    more, u := NextSweep(t);
    Join(FIRST, run, t, more, u);
    run := run + more;
    more, t := NextSweep(u);
    Join(FIRST, run, u, more, t);
    run := run + more;
    more, u := Skip(t, 1);
    Join(FIRST, run, t, more, u);
    run := run + more;
    more, t := Give(u);
    Join(FIRST, run, u, more, t);
    run := run + more;
    more, u := Ends(t, false);
    Join(FIRST, run, t, more, u);
    run := run + more;
    assert u.ws == AFTER4.ws;
  }

  // Round 5: worker 0 runs service 2 and is busy; worker 2 gets the scheduler
  // and steals service 5.
  lemma Steals() returns (run: seq<Action>, t: Sys)
    ensures t == Three(Cell(SchedModel.Run(2), 0, 0, [7], true), Cell(CheckDone(false), 8, 4, [], true),
                       Cell(Serve(true), 3, 0, [], true), 2, Count(0, 0, [5], [0]), WAITING[7..], SetStatus(POOL3, 2, Running), false)
    ensures Leads(FIRST, run, t)
  {
    hide Leads, POOL, WAITING, POOL3, SetStatus;
    PoolOf(2); PoolsOf(2); PoolOf(5); PoolsOf(5); WaitingSize();
    run := Round4();
    var more, u := Begins(AFTER4, 0);
    Join(FIRST, run, AFTER4, more, u);
    run := run + more;
    var a, b, c := Cell(SchedModel.Run(2), 5, 0, [7], true), Cell(CheckDone(false), 8, 4, [], true), Cell(Serve(true), 3, 0, [], true);
    var m := SetStatus(POOL3, 2, Running);
    assert u.ws == [a, b, COMING];
    t := Three(a, b, c, 2, Collect(0, []), WAITING[7..], m, false);
    assert u.ws[2 := c] == t.ws;
    run := Do(FIRST, run, u, 2, PLAIN, t);
    more, u := CollectSweep(t);
    Join(FIRST, run, t, more, u);
    run := run + more;
    t := u.(phase := Pending(0, [], []));
    run := Do(FIRST, run, u, 2, PLAIN, t);
    StillUnbound();
    run, t := Robs(FIRST, run, t);
    more, u := PendingSweep(t);
    Join(FIRST, run, t, more, u);
    run := run + more;
    assert u.ws == [a.(ready := 0), b, c];
    t := u;
  }

  lemma StillUnbound()
    ensures BindingOf(SetStatus(POOL3, 2, Running), 5) == -1
  {
    PoolOf(5); PoolsOf(5); PoolsOf(2);
  }

  // Step 3: worker 0 is busy and loses the job in its slot.
  lemma Robs(s0: Sys, run: seq<Action>, s: Sys) returns (more: seq<Action>, t: Sys)
    requires Leads(s0, run, s) && s.Sys? && 0 < s.owner < |s.ws| && s.phase == Pending(0, [], [])
    requires IsBusy(s.ws[0].pc) && s.ws[0].ready != 0 && BindingOf(s.services, s.ws[0].ready) < 0
    ensures t == s.(ws := s.ws[0 := s.ws[0].(ready := 0)], phase := Pending(1, [s.ws[0].ready], [0])) && Leads(s0, more, t)
  {
    hide Leads, BindingOf;
    var u := s.(phase := PendingCas(0, s.ws[0].ready, [], []));
    more := Do(s0, run, s, s.owner, FLAGGED, u);
    t := s.(ws := s.ws[0 := s.ws[0].(ready := 0)], phase := Pending(1, [s.ws[0].ready], [0]));
    assert [] + [s.ws[0].ready] == [s.ws[0].ready] && [] + [0] == [0];
    more := Do(s0, more, u, s.owner, PLAIN, t);
  }

  // Step 4: worker 0 gets service 7 from its queue, the others have a job
  // each: no slot is free for the stolen service.
  lemma AbortsAtLast() returns (run: seq<Action>)
    ensures Start(FIRST) && AllHonest(FIRST, run) && AllAllowed(FIRST, run) && RunAll(FIRST, run).Aborted?
  {
    hide Start, Leads, POOL, WAITING, POOL3, SetStatus, AllHonest;
    FirstIsStart();
    WaitingSize();
    assert [7][1..] == [];
    var t;
    run, t := Steals();
    var a, b, c := Cell(SchedModel.Run(2), 7, 0, [], true), t.ws[1], t.ws[2];
    var u := t.(ws := [a, b, c], blocked := true, phase := CountWake(0, 0, [5], [0]));
    assert t.ws[0 := a] == u.ws;
    run := Do(FIRST, run, t, 2, PLAIN, u);
    t := u.(phase := Count(1, 0, [5], [0]));
    assert u.ws[0 := Wake(a)] == t.ws;
    run := Do(FIRST, run, u, 2, PLAIN, t);
    assert Empties(t.ws, 3) == 0 && Empties(t.ws, 2) == 0;
    var more;
    more, u := CountSweep(t);
    Join(FIRST, run, t, more, u);
    run := run + more;
    Finally(run);
  }

  lemma Finally(run: seq<Action>)
    requires Leads(FIRST, run, Aborted)
    ensures AllHonest(FIRST, run) && AllAllowed(FIRST, run) && RunAll(FIRST, run).Aborted?
  {
    HonestIsAllowed(FIRST, run);
  }
}
