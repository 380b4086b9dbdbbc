// First come, first served: in the schedule queue, on the way from it to a
// worker, and in a worker's binding queue nobody overtakes.
module SchedOrder {
  import opened SchedModel
  import opened SchedOwner
  import opened SchedDispatch
  import opened SchedEffect
  import opened SchedBudget
  import opened SchedBound
  import opened SchedWake
  import opened SchedStrand
  import opened SchedStray
  import opened SchedTheorem

  // The schedule queue; that queue behind what the scheduler has in hand to
  // give away; the binding queue of worker k.
  datatype Line = Queue | Hands | Binding(k: nat)

  function ToGive(p: Phase): seq<nat> {
    if Local(p).1 == Ready then Local(p).0 else []
  }

  function Waiting(s: Sys, line: Line): seq<nat>
    requires s.Sys?
  {
    match line
    case Queue => s.schedule
    case Hands => ToGive(s.phase) + s.schedule
    case Binding(k) => if k < |s.ws| then s.ws[k].queue else []
  }

  ghost predicate Before(q: seq<nat>, x: nat, y: nat) {
    exists i, j :: 0 <= i < j < |q| && q[i] == x && q[j] == y
  }

  // The step finds x at the head, bound to a worker whose binding queue is
  // full: it goes to the back.
  predicate Passes(s: Sys, i: nat, x: nat) {
    && s.Sys? && s.owner == i < |s.ws| && s.phase.Prepare? && s.phase.left > 0 && s.schedule != [] && s.schedule[0] == x
    && 0 <= BindingOf(s.services, x) < |s.ws| && |s.ws[BindingOf(s.services, x)].queue| >= BINDING_SERVICE_QUEUE
  }

  // --------------------------------------------------------------- sequences

  ghost predicate Once(q: seq<nat>) {
    forall x :: multiset(q)[x] <= 1
  }

  // One line becomes another while x stays in it: who is behind x stays there,
  // and nobody gets in front of it.
  ghost predicate Kept(q: seq<nat>, p: seq<nat>, x: nat, y: nat) {
    x in q && x in p ==> (Before(q, x, y) ==> Before(p, x, y))
  }

  ghost predicate NotJumped(q: seq<nat>, p: seq<nat>, x: nat, y: nat) {
    x in q && x in p && !Before(q, y, x) ==> !Before(p, y, x)
  }

  lemma SameLine(q: seq<nat>, x: nat, y: nat)
    ensures Kept(q, q, x, y) && NotJumped(q, q, x, y)
  {
  }

  lemma TwiceIsTwo(q: seq<nat>, i: nat, j: nat)
    requires i < j < |q| && q[i] == q[j]
    ensures multiset(q)[q[i]] >= 2
  {
    assert q == q[..j] + q[j..];
    assert q[i] in q[..j] && q[j] in q[j..];
  }

  lemma OnceApart(q: seq<nat>, i: nat, j: nat)
    requires Once(q) && i < |q| && j < |q| && q[i] == q[j]
    ensures i == j
  {
    if i < j { TwiceIsTwo(q, i, j); }
    if j < i { TwiceIsTwo(q, j, i); }
  }

  function Without(q: seq<nat>, r: nat): seq<nat>
    requires r < |q|
  {
    q[..r] + q[r + 1..]
  }

  lemma RemovedKeeps(q: seq<nat>, r: nat, x: nat, y: nat)
    requires Once(q) && r < |q| && q[r] != y
    ensures Kept(q, Without(q, r), x, y)
  {
    var p := Without(q, r);
    if x in p && Before(q, x, y) {
      var i, j :| 0 <= i < j < |q| && q[i] == x && q[j] == y;
      var m :| 0 <= m < |p| && p[m] == x;
      OnceApart(q, i, if m < r then m else m + 1);
      assert j != r && p[if j < r then j else j - 1] == y;
      assert p[if i < r then i else i - 1] == x;
    }
  }

  lemma RemovedJumps(q: seq<nat>, r: nat, x: nat, y: nat)
    requires r < |q|
    ensures NotJumped(q, Without(q, r), x, y)
  {
    var p := Without(q, r);
    if Before(p, y, x) {
      var i, j :| 0 <= i < j < |p| && p[i] == y && p[j] == x;
      assert q[if i < r then i else i + 1] == y && q[if j < r then j else j + 1] == x;
    }
  }

  lemma FirstGoes(q: seq<nat>, x: nat, y: nat)
    requires Once(q) && q != []
    ensures Kept(q, q[1..], x, y) && NotJumped(q, q[1..], x, y)
  {
    assert q[1..] == Without(q, 0);
    RemovedJumps(q, 0, x, y);
    if q[0] != y {
      RemovedKeeps(q, 0, x, y);
    } else if Before(q, x, y) {
      var i, j :| 0 <= i < j < |q| && q[i] == x && q[j] == y;
      OnceApart(q, 0, j);
    }
  }

  lemma InsertedKeeps(q: seq<nat>, r: nat, z: nat, x: nat, y: nat)
    requires r <= |q|
    ensures Kept(q, q[..r] + [z] + q[r..], x, y)
  {
    var p := q[..r] + [z] + q[r..];
    if Before(q, x, y) {
      var i, j :| 0 <= i < j < |q| && q[i] == x && q[j] == y;
      assert p[if i < r then i else i + 1] == x && p[if j < r then j else j + 1] == y;
    }
  }

  lemma LastComes(q: seq<nat>, z: nat, x: nat, y: nat)
    requires Once(q + [z])
    ensures Kept(q, q + [z], x, y) && NotJumped(q, q + [z], x, y)
  {
    var p := q + [z];
    assert p == q[..|q|] + [z] + q[|q|..];
    InsertedKeeps(q, |q|, z, x, y);
    if x in q && Before(p, y, x) {
      var i, j :| 0 <= i < j < |p| && p[i] == y && p[j] == x;
      var m :| 0 <= m < |q| && q[m] == x;
      assert p[m] == x;
      OnceApart(p, m, j);
      assert q[i] == y && q[j] == x;
    }
  }

  lemma HeadToBack(q: seq<nat>, x: nat, y: nat)
    requires Once(q) && q != [] && q[0] != x
    ensures Kept(q, q[1..] + [q[0]], x, y) && NotJumped(q, q[1..] + [q[0]], x, y)
  {
    var p := q[1..] + [q[0]];
    assert q == [q[0]] + q[1..];
    assert multiset(p) == multiset(q);
    if Before(q, x, y) {
      var i, j :| 0 <= i < j < |q| && q[i] == x && q[j] == y;
      assert p[i - 1] == x && p[j - 1] == y;
    }
    if Before(p, y, x) {
      var i, j :| 0 <= i < j < |p| && p[i] == y && p[j] == x;
      assert q[i + 1] == y && q[j + 1] == x;
    }
  }

  // ------------------------------------------------------- nobody waits twice

  lemma LineOnce(s: Sys, line: Line)
    requires s.Sys? && Owned(s)
    ensures Once(Waiting(s, line))
  {
    hide Expected, InWorkers, InWorker;
    forall x ensures multiset(Waiting(s, line))[x] <= 1 {
      assert Total(s, x, Ready) == Expected(s.services, x, Ready) <= 1 by { ExpectedOnce(s.services, x, Ready); }
      if line.Binding? && line.k < |s.ws| {
        Holds(s.ws, line.k, x, Ready);
        QueueCounts(s.ws[line.k], x);
      }
    }
  }

  lemma ExpectedOnce(m: Services, x: nat, k: Kind)
    ensures Expected(m, x, k) <= 1
  {
  }

  lemma QueueCounts(w: Worker, x: nat)
    ensures InWorker(w, x, Ready) >= multiset(w.queue)[x]
  {
  }

  // --------------------------------------------------------- one step at most

  // What a step may do to a line, for x and y in it.
  ghost predicate Fair(s: Sys, t: Sys, line: Line, x: nat, y: nat)
    requires s.Sys? && t.Sys?
  {
    && Kept(Waiting(s, line), Waiting(t, line), x, y)
    && (!line.Hands? ==> NotJumped(Waiting(s, line), Waiting(t, line), x, y))
  }

  lemma SameFair(s: Sys, t: Sys, line: Line, x: nat, y: nat)
    requires s.Sys? && t.Sys? && Waiting(t, line) == Waiting(s, line)
    ensures Fair(s, t, line, x, y)
  {
    hide Waiting, Before;
    SameLine(Waiting(s, line), x, y);
  }

  lemma WorkerFair(s: Sys, i: nat, e: Env, line: Line, x: nat, y: nat)
    requires s.Sys? && Control(s) && i < |s.ws| && (s.phase == Off || s.owner != i) && WorkerStep(s, i, e).Sys?
    ensures Fair(s, WorkerStep(s, i, e), line, x, y)
  {
    hide Control, WorkerStep, NextWorker, Fair, Before;
    if Quits(s.ws[i].pc) {
      QuitsEffect(s, i, e);
    } else {
      Effect(s, i, e);
      SlotsOf(s, i, e);
      if s.phase == Off { IdleEffect(s, i, e); } else { RoundKept(s, i, e); }
    }
    SameFair(s, WorkerStep(s, i, e), line, x, y);
  }

  // Step 2 adds one service at most, at the back.
  ghost predicate Adds(s: Sys, t: Sys)
    requires s.Sys?
  {
    && t.Sys? && t.ws == s.ws && ToGive(t.phase) == ToGive(s.phase) == []
    && |s.schedule| <= |t.schedule| <= |s.schedule| + 1 && t.schedule[..|s.schedule|] == s.schedule
  }

  lemma CheckAdds(s: Sys, u: Sys, to: nat, p: Phase)
    requires s.Sys? && u.Sys? && u.ws == s.ws && u.schedule == s.schedule && ToGive(p) == ToGive(s.phase) == []
    ensures CheckRoute(u, to, p).Sys? ==> Adds(s, CheckRoute(u, to, p))
    ensures BackRoute(u, to, p).Sys? ==> Adds(s, BackRoute(u, to, p))
  {
  }

  lemma RouteAdds(s: Sys, e: Env)
    requires s.Sys? && (s.phase.Route? || s.phase.Settle?) && 0 <= s.owner < |s.ws| && SchedulerStep(s, e).Sys?
    ensures Adds(s, SchedulerStep(s, e))
  {
    hide CheckRoute, BackRoute, SetStatus, SetLoss, StatusOf;
    if s.phase.jobs != [] {
      var id, rest := s.phase.jobs[0], s.phase.jobs[1..];
      var m := s.services;
      if s.phase.Settle? {
        CheckAdds(s, s.(services := SetStatus(m, id, Schedule)), id, Route(rest));
      } else if StatusOf(m, id) == Dead {
        if id in m {
          var n := m[id := m[id].(signal := false)];
          CheckAdds(s, s.(services := SetLoss(n, id, Requeued)), id, Route(rest));
          CheckAdds(s, s.(services := n), ROOT, Route(rest));
        }
      } else if e.message.To? {
        CheckAdds(s, s, e.message.to, Settle(s.phase.jobs));
      }
    }
  }

  lemma RouteFair(s: Sys, e: Env, line: Line, x: nat, y: nat)
    requires s.Sys? && (s.phase.Route? || s.phase.Settle?) && 0 <= s.owner < |s.ws| && SchedulerStep(s, e).Sys?
    requires Owned(SchedulerStep(s, e))
    ensures Fair(s, SchedulerStep(s, e), line, x, y)
  {
    hide SchedulerStep, Owned, Once, Fair, Before, Kept, NotJumped;
    var t := SchedulerStep(s, e);
    RouteAdds(s, e);
    LineOnce(t, line);
    var n := |s.schedule|;
    if |t.schedule| == n || line.Binding? {
      assert t.schedule[..|t.schedule|] == t.schedule;
      SameFair(s, t, line, x, y);
    } else {
      assert t.schedule == s.schedule + [t.schedule[n]];
      assert Waiting(t, line) == Waiting(s, line) + [t.schedule[n]];
      LastComes(Waiting(s, line), t.schedule[n], x, y);
      IsFair(s, t, line, x, y);
    }
  }

  lemma IsFair(s: Sys, t: Sys, line: Line, x: nat, y: nat)
    requires s.Sys? && t.Sys? && Kept(Waiting(s, line), Waiting(t, line), x, y)
    requires line.Hands? || NotJumped(Waiting(s, line), Waiting(t, line), x, y)
    ensures Fair(s, t, line, x, y)
  {
  }

  // Steps 1 and 3, and what comes after step 6: nothing but the scheduler's
  // hands changes.
  lemma StealFair(s: Sys, e: Env, line: Line, x: nat, y: nat)
    requires s.Sys? && 0 <= s.owner < |s.ws| && SchedulerStep(s, e).Sys? && Owned(s)
    requires s.phase.Collect? || s.phase.Pending? || s.phase.PendingCas? || s.phase.Trigger? || TailPhase(s.phase)
    ensures Fair(s, SchedulerStep(s, e), line, x, y)
  {
    hide SchedulerStep, Owned, Once, Fair, Before, Kept, NotJumped;
    var t := SchedulerStep(s, e);
    var a, b := ToGive(s.phase), ToGive(t.phase);
    StealShape(s, e);
    if !line.Hands? || a == b {
      SameFair(s, t, line, x, y);
    } else {
      LineOnce(s, Hands);
      var q := Waiting(s, Hands);
      if s.phase.OwnStore? {
        assert q[1..] == Waiting(t, Hands);
        FirstGoes(q, x, y);
      } else {
        assert q[..|a|] + [b[|a|]] + q[|a|..] == Waiting(t, Hands);
        InsertedKeeps(q, |a|, b[|a|], x, y);
      }
      IsFair(s, t, line, x, y);
    }
  }

  ghost predicate QueuesKept(ws: seq<Worker>, vs: seq<Worker>) {
    |vs| == |ws| && forall k | 0 <= k < |ws| :: vs[k].queue == ws[k].queue
  }

  ghost predicate Handles(s: Sys, t: Sys)
    requires s.Sys?
  {
    && t.Sys? && t.schedule == s.schedule && QueuesKept(s.ws, t.ws)
    && var a, b := ToGive(s.phase), ToGive(t.phase);
    if s.phase.OwnStore? then |a| == 1 && b == [] else b == a || (|b| == |a| + 1 && b[..|a|] == a)
  }

  lemma StealShape(s: Sys, e: Env)
    requires s.Sys? && 0 <= s.owner < |s.ws| && SchedulerStep(s, e).Sys?
    requires s.phase.Collect? || s.phase.Pending? || s.phase.PendingCas? || s.phase.Trigger? || TailPhase(s.phase)
    ensures Handles(s, SchedulerStep(s, e))
  {
    hide SchedulerStep, Handles;
    if s.phase.Collect? {
      CollectShape(s, e);
    } else if s.phase.Pending? || s.phase.PendingCas? {
      PendingShape(s, e);
    } else if s.phase.OwnCas? || s.phase.OwnStore? || s.phase.OwnSteal? {
      OwnShape(s, e);
    } else {
      EndShape(s, e);
    }
  }

  lemma CollectShape(s: Sys, e: Env)
    requires s.Sys? && 0 <= s.owner < |s.ws| && s.phase.Collect?
    ensures Handles(s, SchedulerStep(s, e))
  {
  }

  lemma PendingShape(s: Sys, e: Env)
    requires s.Sys? && 0 <= s.owner < |s.ws| && (s.phase.Pending? || s.phase.PendingCas?)
    ensures Handles(s, SchedulerStep(s, e))
  {
    hide BindingOf;
  }

  lemma OwnShape(s: Sys, e: Env)
    requires s.Sys? && 0 <= s.owner < |s.ws| && (s.phase.OwnCas? || s.phase.OwnStore? || s.phase.OwnSteal?)
    ensures Handles(s, SchedulerStep(s, e))
  {
    hide BindingOf;
  }

  lemma EndShape(s: Sys, e: Env)
    requires s.Sys? && 0 <= s.owner < |s.ws| && (s.phase.Trigger? || s.phase.HasJob? || s.phase.Release?)
    ensures Handles(s, SchedulerStep(s, e))
  {
  }

  // Steps 4 and 6: a worker takes the head of its binding queue, or the first
  // service in hand.
  ghost predicate Gives(s: Sys, t: Sys)
    requires s.Sys?
  {
    && t.Sys? && t.schedule == s.schedule && |t.ws| == |s.ws|
    && (forall k | 0 <= k < |s.ws| ::
          t.ws[k].queue == s.ws[k].queue || (s.ws[k].queue != [] && t.ws[k].queue == s.ws[k].queue[1..]))
    && var a, b := ToGive(s.phase), ToGive(t.phase); b == a || (a != [] && b == a[1..])
  }

  lemma CountShape(s: Sys, e: Env)
    requires s.Sys? && 0 <= s.owner < |s.ws| && s.phase.Count? && SchedulerStep(s, e).Sys?
    ensures Gives(s, SchedulerStep(s, e))
  {
  }

  lemma WakeShape(s: Sys, e: Env)
    requires s.Sys? && 0 <= s.owner < |s.ws| && (s.phase.CountWake? || s.phase.PrepareWake? || s.phase.AssignWake?)
    ensures Gives(s, SchedulerStep(s, e))
  {
  }

  lemma AssignShape(s: Sys, e: Env)
    requires s.Sys? && 0 <= s.owner < |s.ws| && s.phase.Assign? && SchedulerStep(s, e).Sys?
    ensures Gives(s, SchedulerStep(s, e))
  {
    hide SchedulerStep, Gives, TakeBound;
    var Assign(k, busy, bound, prep) := s.phase;
    var t := SchedulerStep(s, e);
    assert t == AssignStep(s, k, busy, bound, prep, e.flag) by { AssignIs(s, e); }
    if t.phase.AssignWake? {
      GivesOne(s, t, k);
    } else {
      GivesNone(s, t);
    }
  }

  lemma AssignIs(s: Sys, e: Env)
    requires s.Sys? && 0 <= s.owner < |s.ws| && s.phase.Assign?
    ensures var Assign(k, busy, bound, prep) := s.phase; SchedulerStep(s, e) == AssignStep(s, k, busy, bound, prep, e.flag)
  {
    hide AssignStep;
  }

  lemma GivesNone(s: Sys, t: Sys)
    requires s.Sys? && t.Sys? && t.ws == s.ws && t.schedule == s.schedule && ToGive(t.phase) == ToGive(s.phase)
    ensures Gives(s, t)
  {
  }

  lemma GivesOne(s: Sys, t: Sys, k: nat)
    requires s.Sys? && t.Sys? && k < |s.ws| && s.phase.Assign? && t.phase.AssignWake? && t.schedule == s.schedule
    requires
      || (s.ws[k].queue != [] && t.ws == s.ws[k := TakeBound(s.ws[k])] && t.phase.prep == s.phase.prep)
      || (s.phase.prep != [] && t.ws == s.ws[k := s.ws[k].(ready := s.phase.prep[0])] && t.phase.prep == s.phase.prep[1..])
    ensures Gives(s, t)
  {
  }

  lemma PlaceFair(s: Sys, e: Env, line: Line, x: nat, y: nat)
    requires s.Sys? && 0 <= s.owner < |s.ws| && SchedulerStep(s, e).Sys? && Owned(s)
    requires s.phase.Count? || s.phase.CountWake? || s.phase.PrepareWake? || s.phase.Assign? || s.phase.AssignWake?
    ensures Fair(s, SchedulerStep(s, e), line, x, y)
  {
    hide SchedulerStep, Owned, Once, Fair, Before, Kept, NotJumped;
    var t := SchedulerStep(s, e);
    if s.phase.Count? { CountShape(s, e); } else if s.phase.Assign? { AssignShape(s, e); } else { WakeShape(s, e); }
    LineOnce(s, line);
    var q := Waiting(s, line);
    if Waiting(t, line) == q {
      SameFair(s, t, line, x, y);
    } else {
      assert q != [] && Waiting(t, line) == q[1..];
      FirstGoes(q, x, y);
      IsFair(s, t, line, x, y);
    }
  }

  // Step 5: from the head of the queue into the scheduler's hands, into the
  // binding queue of its worker, or to the back.
  lemma PrepareFair(s: Sys, e: Env, line: Line, x: nat, y: nat)
    requires s.Sys? && 0 <= s.owner < |s.ws| && s.phase.Prepare? && SchedulerStep(s, e).Sys?
    requires Owned(s) && Owned(SchedulerStep(s, e))
    requires !Passes(s, s.owner, x) && (line.Hands? ==> BindingOf(s.services, y) < 0)
    ensures Fair(s, SchedulerStep(s, e), line, x, y)
  {
    hide SchedulerStep, Owned, Fair, Passes;
    if s.phase.left == 0 || s.schedule == [] {
      PrepareStops(s, e);
      SameFair(s, SchedulerStep(s, e), line, x, y);
    } else if BindingOf(s.services, s.schedule[0]) < 0 {
      PrepareUnboundFair(s, e, line, x, y);
    } else {
      PrepareBoundFair(s, e, line, x, y);
    }
  }

  lemma PrepareUnboundFair(s: Sys, e: Env, line: Line, x: nat, y: nat)
    requires s.Sys? && 0 <= s.owner < |s.ws| && s.phase.Prepare? && s.phase.left > 0 && s.schedule != [] && Owned(s)
    requires BindingOf(s.services, s.schedule[0]) < 0
    ensures SchedulerStep(s, e).Sys? && Fair(s, SchedulerStep(s, e), line, x, y)
  {
    hide SchedulerStep, Owned, Once, Fair, Before, Kept, NotJumped;
    var t := SchedulerStep(s, e);
    PrepareTakes(s, e);
    if line.Queue? {
      LineOnce(s, line);
      FirstGoes(s.schedule, x, y);
      IsFair(s, t, line, x, y);
    } else {
      assert [s.schedule[0]] + s.schedule[1..] == s.schedule;
      assert line.Hands? ==> Waiting(t, line) == s.phase.prep + ([s.schedule[0]] + s.schedule[1..]);
      SameFair(s, t, line, x, y);
    }
  }

  lemma PrepareStops(s: Sys, e: Env)
    requires s.Sys? && 0 <= s.owner < |s.ws| && s.phase.Prepare? && (s.phase.left == 0 || s.schedule == [])
    ensures SchedulerStep(s, e) == s.(phase := Assign(0, false, false, s.phase.prep))
  {
  }

  lemma PrepareTakes(s: Sys, e: Env)
    requires s.Sys? && 0 <= s.owner < |s.ws| && s.phase.Prepare? && s.phase.left > 0 && s.schedule != []
    requires BindingOf(s.services, s.schedule[0]) < 0
    ensures SchedulerStep(s, e) ==
      s.(schedule := s.schedule[1..], phase := Prepare(s.phase.left - 1, s.phase.prep + [s.schedule[0]]))
  {
  }

  lemma PrepareBinds(s: Sys, e: Env)
    requires s.Sys? && 0 <= s.owner < |s.ws| && s.phase.Prepare? && s.phase.left > 0 && s.schedule != []
    requires 0 <= BindingOf(s.services, s.schedule[0]) && SchedulerStep(s, e).Sys?
    ensures var t, job := SchedulerStep(s, e), s.schedule[0];
      var b := BindingOf(s.services, job);
      && b < |s.ws| && |t.ws| == |s.ws| && ToGive(t.phase) == ToGive(s.phase)
      && (forall k | 0 <= k < |s.ws| && k != b :: t.ws[k] == s.ws[k])
      && if |s.ws[b].queue| >= BINDING_SERVICE_QUEUE then t.ws == s.ws && t.schedule == s.schedule[1..] + [job]
         else t.schedule == s.schedule[1..] && var q := s.ws[b].queue + [job]; t.ws[b].queue in {q, q[1..]}
  {
  }

  lemma KeptTwice(q: seq<nat>, p: seq<nat>, r: seq<nat>, x: nat, y: nat)
    requires Kept(q, p, x, y) && Kept(p, r, x, y) && (x in q && x in r ==> x in p)
    ensures Kept(q, r, x, y)
    ensures NotJumped(q, p, x, y) && NotJumped(p, r, x, y) ==> NotJumped(q, r, x, y)
  {
    hide Before;
  }

  // A bound service leaves the queue past those in hand, who are not bound.
  lemma HandsFair(s: Sys, t: Sys, x: nat, y: nat)
    requires s.Sys? && t.Sys? && Owned(s) && s.schedule != [] && ToGive(t.phase) == ToGive(s.phase) && y != s.schedule[0]
    requires t.schedule == s.schedule[1..] || (t.schedule == s.schedule[1..] + [s.schedule[0]] && x != s.schedule[0])
    ensures Fair(s, t, Hands, x, y)
  {
    hide Owned, Once, Fair, Before, Kept, NotJumped;
    LineOnce(s, Hands);
    var a, q := ToGive(s.phase), Waiting(s, Hands);
    var p := Without(q, |a|);
    assert q[|a|] == s.schedule[0];
    assert p == a + s.schedule[1..];
    RemovedKeeps(q, |a|, x, y);
    if t.schedule != s.schedule[1..] {
      var r := p + [s.schedule[0]];
      assert r == p[..|p|] + [s.schedule[0]] + p[|p|..] == Waiting(t, Hands);
      InsertedKeeps(p, |p|, s.schedule[0], x, y);
      if x in r { assert x in p; }
      KeptTwice(q, p, r, x, y);
    }
    IsFair(s, t, Hands, x, y);
  }

  lemma OnceMore(s: Sys, k: nat)
    requires s.Sys? && Owned(s) && k < |s.ws| && s.schedule != []
    ensures Once(s.ws[k].queue + [s.schedule[0]])
  {
    hide Expected, InWorkers, InWorker;
    var job := s.schedule[0];
    forall x ensures multiset(s.ws[k].queue + [job])[x] <= 1 {
      assert Total(s, x, Ready) == Expected(s.services, x, Ready) <= 1 by { ExpectedOnce(s.services, x, Ready); }
      Holds(s.ws, k, x, Ready);
      QueueCounts(s.ws[k], x);
      CountTail(s.schedule, x);
      CountAppend(s.ws[k].queue, job, x);
    }
  }

  lemma BindingFair(s: Sys, t: Sys, k: nat, x: nat, y: nat)
    requires s.Sys? && t.Sys? && Owned(s) && k < |s.ws| == |t.ws| && s.schedule != []
    requires var q := s.ws[k].queue + [s.schedule[0]]; t.ws[k].queue in {s.ws[k].queue, q, q[1..]}
    ensures Fair(s, t, Binding(k), x, y)
  {
    hide Owned, Once, Fair, Before, Kept, NotJumped;
    var a := s.ws[k].queue;
    var q := a + [s.schedule[0]];
    if t.ws[k].queue == a {
      SameFair(s, t, Binding(k), x, y);
    } else {
      OnceMore(s, k);
      LastComes(a, s.schedule[0], x, y);
      if t.ws[k].queue == q[1..] {
        FirstGoes(q, x, y);
        KeptTwice(a, q, q[1..], x, y);
      }
      IsFair(s, t, Binding(k), x, y);
    }
  }

  lemma PrepareBoundFair(s: Sys, e: Env, line: Line, x: nat, y: nat)
    requires s.Sys? && 0 <= s.owner < |s.ws| && s.phase.Prepare? && s.phase.left > 0 && s.schedule != []
    requires 0 <= BindingOf(s.services, s.schedule[0]) && SchedulerStep(s, e).Sys?
    requires Owned(s) && Owned(SchedulerStep(s, e))
    requires !Passes(s, s.owner, x) && (line.Hands? ==> BindingOf(s.services, y) < 0)
    ensures Fair(s, SchedulerStep(s, e), line, x, y)
  {
    hide SchedulerStep, Owned, Once, Fair, Before, Kept, NotJumped;
    var t, job, q := SchedulerStep(s, e), s.schedule[0], Waiting(s, line);
    var b := BindingOf(s.services, job);
    PrepareBinds(s, e);
    LineOnce(s, line);
    LineOnce(t, line);
    match line {
      case Queue =>
        if |s.ws[b].queue| >= BINDING_SERVICE_QUEUE { HeadToBack(q, x, y); } else { FirstGoes(q, x, y); }
        IsFair(s, t, line, x, y);
      case Hands =>
        HandsFair(s, t, x, y);
      case Binding(k) =>
        if k < |s.ws| { BindingFair(s, t, k, x, y); } else { SameFair(s, t, line, x, y); }
    }
  }

  lemma StepFair(s: Sys, i: nat, e: Env, line: Line, x: nat, y: nat)
    requires s.Sys? && Good(s) && Allowed(s, i, e) && Step(s, i, e).Sys?
    requires !Passes(s, i, x) && (line.Hands? ==> BindingOf(s.services, y) < 0)
    ensures Fair(s, Step(s, i, e), line, x, y)
  {
    hide Control, Owned, Budget, Bound, Awake, Strand, Traced, Fair, WorkerStep, SchedulerStep, Allowed, Passes, Waiting;
    if i >= |s.ws| {
      SameFair(s, s, line, x, y);
    } else if s.phase != Off && s.owner == i {
      StepKeeps(s, i, e);
      if s.phase.Route? || s.phase.Settle? {
        RouteFair(s, e, line, x, y);
      } else if s.phase.Prepare? {
        PrepareFair(s, e, line, x, y);
      } else if s.phase.Count? || s.phase.CountWake? || s.phase.PrepareWake? || s.phase.Assign? || s.phase.AssignWake? {
        PlaceFair(s, e, line, x, y);
      } else {
        StealFair(s, e, line, x, y);
      }
    } else {
      WorkerFair(s, i, e, line, x, y);
    }
  }

  // ------------------------------------------------------------- main result

  // x waits in the line through the whole run, and is never sent to the back.
  ghost predicate WaitsOn(s: Sys, more: seq<Action>, line: Line, x: nat)
    decreases |more|
  {
    && s.Sys? && x in Waiting(s, line)
    && (more != [] ==> !Passes(s, more[0].worker, x) && WaitsOn(Step(s, more[0].worker, more[0].env), more[1..], line, x))
  }

  // An unbound service that waits stays unbound.
  lemma StaysUnbound(s: Sys, i: nat, e: Env, y: nat)
    requires s.Sys? && Good(s) && Allowed(s, i, e) && Step(s, i, e).Sys? && y in Waiting(s, Hands) && BindingOf(s.services, y) < 0
    ensures BindingOf(Step(s, i, e).services, y) < 0
  {
    hide Budget, Bound, Awake, Strand, Traced, Step, Allowed;
    if y in s.schedule { QueuedIsOwned(s, y); } else { LocalIsOwned(s, y); }
    BindingStays(s, i, e, y);
  }

  // As long as x waits in the line, who is behind it stays behind it and nobody
  // gets in front of it, whatever the workers do. Stolen services are put in
  // hand before the queue, so for Hands only the first is claimed, and only of
  // unbound services: a bound one goes to its own worker. The one exception is
  // a service sent to the back because its worker's binding queue is full.
  lemma {:induction false} NobodyOvertakes(s: Sys, more: seq<Action>, line: Line, x: nat, y: nat)
    requires s.Sys? && Good(s) && AllAllowed(s, more) && WaitsOn(s, more, line, x)
    requires line.Hands? ==> BindingOf(s.services, y) < 0 && Before(Waiting(s, line), x, y)
    ensures var t := RunAll(s, more);
      && t.Sys?
      && (Before(Waiting(s, line), x, y) ==> Before(Waiting(t, line), x, y))
      && (!line.Hands? && !Before(Waiting(s, line), y, x) ==> !Before(Waiting(t, line), y, x))
    decreases |more|
  {
    hide Good, Step, Allowed, Passes, Waiting, Before;
    if more != [] {
      var a := more[0];
      var t := Step(s, a.worker, a.env);
      StepKeeps(s, a.worker, a.env);
      StepFair(s, a.worker, a.env, line, x, y);
      if line.Hands? { BehindIsThere(Waiting(s, line), x, y); StaysUnbound(s, a.worker, a.env, y); }
      NobodyOvertakes(t, more[1..], line, x, y);
    }
  }

  lemma BehindIsThere(q: seq<nat>, x: nat, y: nat)
    requires Before(q, x, y)
    ensures x in q && y in q
  {
  }

  // ... in particular from any state a run reaches.
  lemma FirstComeFirstServed(s0: Sys, actions: seq<Action>, s: Sys, more: seq<Action>, line: Line, x: nat, y: nat)
    requires Reaches(s0, actions, s) && AllAllowed(s, more) && WaitsOn(s, more, line, x)
    requires line.Hands? ==> BindingOf(s.services, y) < 0 && Before(Waiting(s, line), x, y)
    ensures var t := RunAll(s, more);
      && t.Sys?
      && (Before(Waiting(s, line), x, y) ==> Before(Waiting(t, line), x, y))
      && (!line.Hands? && !Before(Waiting(s, line), y, x) ==> !Before(Waiting(t, line), y, x))
  {
    hide Good, Reaches, AllAllowed, Before, Waiting;
    ReachedIsGood(s0, actions, s);
    NobodyOvertakes(s, more, line, x, y);
  }

  // ------------------------------------------------- a worker's own come first

  // From step 4 on the owner has a job or nothing in its binding queue.
  predicate PastOwner(p: Phase, i: int) {
    match p
    case Count(k, _, _, _) => k > i
    case CountWake(k, _, _, _) => k >= i
    case Prepare(_, _) => true
    case PrepareWake(_, _, _) => true
    case Assign(_, _, _, _) => true
    case AssignWake(_, _, _, _) => true
    case Trigger => true
    case HasJob => true
    case OwnSteal(_) => true
    case OwnCas(_, _) => true
    case OwnStore(_) => true
    case _ => false
  }

  predicate HasOwn(w: Worker) {
    w.ready != 0 || w.queue == []
  }

  predicate OwnerFed(s: Sys)
    requires s.Sys?
  {
    0 <= s.owner < |s.ws| && PastOwner(s.phase, s.owner) ==> HasOwn(s.ws[s.owner])
  }

  lemma WorkerFed(s: Sys, i: nat, e: Env)
    requires s.Sys? && Control(s) && OwnerFed(s) && i < |s.ws| && (s.phase == Off || s.owner != i) && WorkerStep(s, i, e).Sys?
    ensures OwnerFed(WorkerStep(s, i, e))
  {
    hide Control, WorkerStep, NextWorker;
    if Quits(s.ws[i].pc) { QuitsEffect(s, i, e); } else { Effect(s, i, e); }
    if s.phase == Off { IdleEffect(s, i, e); } else { RoundKept(s, i, e); }
  }

  lemma SchedulerFed(s: Sys, e: Env)
    requires s.Sys? && Control(s) && Owned(s) && OwnerFed(s) && s.phase != Off && 0 <= s.owner < |s.ws|
    requires SchedulerStep(s, e).Sys?
    ensures OwnerFed(SchedulerStep(s, e))
  {
    hide Control, Owned, SchedulerStep;
    Facts2(s);
    if s.phase.Count? {
      CountFed(s, e);
    } else if s.phase.Prepare? {
      PrepareFed(s, e);
    } else if s.phase.Assign? {
      AssignFed(s, e);
    } else if TailPhase(s.phase) || s.phase.Trigger? {
      TailFed(s, e);
    } else if s.phase.CountWake? || s.phase.PrepareWake? || s.phase.AssignWake? {
      WakeFed(s, e);
    } else {
      EarlyFed(s, e);
    }
  }

  lemma CountFed(s: Sys, e: Env)
    requires s.Sys? && Control(s) && Owned(s) && OwnerFed(s) && s.phase.Count? && 0 <= s.owner < |s.ws|
    ensures SchedulerStep(s, e).Sys? ==> OwnerFed(SchedulerStep(s, e))
  {
    hide Control, Owned;
    var k := s.phase.k;
    if k < |s.ws| && s.ws[k].queue != [] { NotNull(s, k); }
  }

  lemma PrepareFed(s: Sys, e: Env)
    requires s.Sys? && Control(s) && Owned(s) && OwnerFed(s) && s.phase.Prepare? && 0 <= s.owner < |s.ws|
    ensures SchedulerStep(s, e).Sys? ==> OwnerFed(SchedulerStep(s, e))
  {
    hide Control, Owned;
    if s.phase.left > 0 && s.schedule != [] {
      QueuedIsOwned(s, s.schedule[0]);
      Facts2(s);
    }
  }

  lemma AssignFed(s: Sys, e: Env)
    requires s.Sys? && Control(s) && Owned(s) && OwnerFed(s) && s.phase.Assign? && 0 <= s.owner < |s.ws|
    ensures SchedulerStep(s, e).Sys? ==> OwnerFed(SchedulerStep(s, e))
  {
    hide Control, Owned;
    if s.phase.prep != [] {
      LocalIsOwned(s, s.phase.prep[0]);
      Facts2(s);
    }
  }

  lemma TailFed(s: Sys, e: Env)
    requires s.Sys? && OwnerFed(s) && (TailPhase(s.phase) || s.phase.Trigger?) && 0 <= s.owner < |s.ws|
    requires s.phase.OwnCas? ==> s.ws[s.owner].ready == 0 && s.phase.job != 0
    requires s.phase.OwnStore? ==> s.phase.job != 0
    ensures SchedulerStep(s, e).Sys? && OwnerFed(SchedulerStep(s, e))
  {
    hide BindingOf;
  }

  lemma WakeFed(s: Sys, e: Env)
    requires s.Sys? && OwnerFed(s) && (s.phase.CountWake? || s.phase.PrepareWake? || s.phase.AssignWake?)
    requires 0 <= s.owner < |s.ws|
    ensures SchedulerStep(s, e).Sys? && OwnerFed(SchedulerStep(s, e))
  {
  }

  lemma EarlyFed(s: Sys, e: Env)
    requires s.Sys? && 0 <= s.owner < |s.ws| && SchedulerStep(s, e).Sys?
    requires s.phase.Collect? || s.phase.Route? || s.phase.Settle? || s.phase.Pending? || s.phase.PendingCas?
    ensures OwnerFed(SchedulerStep(s, e))
  {
    hide BindingOf, CheckTo, Back;
  }

  lemma StepFed(s: Sys, i: nat, e: Env)
    requires s.Sys? && Good(s) && OwnerFed(s) && Step(s, i, e).Sys?
    ensures OwnerFed(Step(s, i, e))
  {
    hide Control, Owned, Budget, Bound, Awake, Strand, Traced, WorkerStep, SchedulerStep, OwnerFed;
    if i < |s.ws| {
      if s.phase != Off && s.owner == i { SchedulerFed(s, e); } else { WorkerFed(s, i, e); }
    }
  }

  lemma {:induction false} RunFed(s: Sys, actions: seq<Action>)
    requires s.Sys? && Good(s) && OwnerFed(s) && AllAllowed(s, actions) && RunAll(s, actions).Sys?
    ensures OwnerFed(RunAll(s, actions))
    decreases |actions|
  {
    hide Good, OwnerFed, Step, Allowed;
    if actions != [] {
      var a := actions[0];
      StepKeeps(s, a.worker, a.env);
      var t := Step(s, a.worker, a.env);
      if !t.Sys? { FailedRun(t, actions[1..]); }
      StepFed(s, a.worker, a.env);
      RunFed(t, actions[1..]);
    }
  }

  // The step gives worker k a job, though services wait in its binding queue.
  predicate Feeds(s: Sys, t: Sys, k: nat) {
    s.Sys? && t.Sys? && k < |s.ws| == |t.ws| && s.ws[k].ready == 0 && t.ws[k].ready != 0 && s.ws[k].queue != []
  }

  lemma SchedulerFeeds(s: Sys, e: Env, k: nat)
    requires s.Sys? && OwnerFed(s) && 0 <= s.owner < |s.ws| && Feeds(s, SchedulerStep(s, e), k)
    ensures SchedulerStep(s, e).ws[k].ready == s.ws[k].queue[0]
  {
    hide SchedulerStep, OwnerFed;
    if s.phase.Route? || s.phase.Settle? {
      RouteAdds(s, e);
    } else if s.phase.Prepare? {
      PrepareFeeds(s, e, k);
    } else if s.phase.Assign? {
      AssignFeeds(s, e, k);
    } else if s.phase.Trigger? || TailPhase(s.phase) {
      TailFeeds(s, e, k);
    } else if s.phase.Off? || s.phase.Collect? || s.phase.Pending? || s.phase.PendingCas? {
      EarlyFeeds(s, e, k);
    } else {
      CountFeeds(s, e, k);
    }
  }

  lemma EarlyFeeds(s: Sys, e: Env, k: nat)
    requires s.Sys? && OwnerFed(s) && 0 <= s.owner < |s.ws|
    requires s.phase.Off? || s.phase.Collect? || s.phase.Pending? || s.phase.PendingCas?
    ensures !Feeds(s, SchedulerStep(s, e), k)
  {
    hide BindingOf, OwnerFed;
  }

  lemma CountFeeds(s: Sys, e: Env, k: nat)
    requires s.Sys? && OwnerFed(s) && 0 <= s.owner < |s.ws| && Feeds(s, SchedulerStep(s, e), k)
    requires s.phase.Count? || s.phase.CountWake? || s.phase.PrepareWake? || s.phase.AssignWake?
    ensures SchedulerStep(s, e).ws[k].ready == s.ws[k].queue[0]
  {
    hide BindingOf, OwnerFed;
  }

  lemma PrepareFeeds(s: Sys, e: Env, k: nat)
    requires s.Sys? && 0 <= s.owner < |s.ws| && Feeds(s, SchedulerStep(s, e), k)
    requires s.phase.Prepare?
    ensures SchedulerStep(s, e).ws[k].ready == s.ws[k].queue[0]
  {
    hide SchedulerStep;
    if s.phase.left == 0 || s.schedule == [] {
      PrepareStops(s, e);
    } else if BindingOf(s.services, s.schedule[0]) < 0 {
      PrepareTakes(s, e);
    } else {
      PrepareBinds(s, e);
      PrepareReady(s, e);
    }
  }

  lemma PrepareReady(s: Sys, e: Env)
    requires s.Sys? && 0 <= s.owner < |s.ws| && s.phase.Prepare? && s.phase.left > 0 && s.schedule != []
    requires 0 <= BindingOf(s.services, s.schedule[0]) < |s.ws|
    ensures var b := BindingOf(s.services, s.schedule[0]);
      var t, w := SchedulerStep(s, e), s.ws[b];
      t.Sys? && b < |t.ws| && t.ws[b].ready in {w.ready, (w.queue + [s.schedule[0]])[0]}
  {
  }

  lemma AssignFeeds(s: Sys, e: Env, k: nat)
    requires s.Sys? && OwnerFed(s) && 0 <= s.owner < |s.ws| && Feeds(s, SchedulerStep(s, e), k)
    requires s.phase.Assign?
    ensures SchedulerStep(s, e).ws[k].ready == s.ws[k].queue[0]
  {
    hide OwnerFed;
  }

  lemma TailFeeds(s: Sys, e: Env, k: nat)
    requires s.Sys? && OwnerFed(s) && 0 <= s.owner < |s.ws|
    requires s.phase.Trigger? || TailPhase(s.phase)
    ensures !Feeds(s, SchedulerStep(s, e), k)
  {
    hide BindingOf;
  }

  lemma WorkerFeeds(s: Sys, i: nat, e: Env, k: nat)
    requires s.Sys? && i < |s.ws|
    ensures !Feeds(s, WorkerStep(s, i, e), k)
  {
    hide WorkerStep, NextWorker;
    if WorkerStep(s, i, e).Sys? {
      if Quits(s.ws[i].pc) {
        QuitsEffect(s, i, e);
      } else {
        Effect(s, i, e);
        SlotsOf(s, i, e);
      }
    }
  }

  // As long as a service waits in a worker's binding queue the worker is given
  // no other: the next job it gets is the head of that queue, be it in step 4,
  // 5 or 6, and it steals none.
  lemma OwnQueueFirst(s0: Sys, actions: seq<Action>, s: Sys, i: nat, e: Env, k: nat)
    requires Reaches(s0, actions, s) && s.Sys? && Allowed(s, i, e) && Feeds(s, Step(s, i, e), k)
    ensures Step(s, i, e).ws[k].ready == s.ws[k].queue[0]
  {
    hide Good, Start, AllAllowed, RunAll, WorkerStep, SchedulerStep, OwnerFed, Feeds;
    StartGood(s0);
    StartFed(s0);
    RunFed(s0, actions);
    RunKeeps(s0, actions);
    if i < |s.ws| {
      if s.phase != Off && s.owner == i { SchedulerFeeds(s, e, k); } else { WorkerFeeds(s, i, e, k); }
    } else {
      NotFed(s, k);
    }
  }

  lemma NotFed(s: Sys, k: nat)
    ensures !Feeds(s, s, k)
  {
  }

  lemma StartFed(s: Sys)
    requires Start(s)
    ensures s.Sys? && OwnerFed(s)
  {
  }
}
