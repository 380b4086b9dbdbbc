// Who gets what in one round, while the workers keep still: whose finished
// services are collected, who is robbed of a waiting job, which workers are
// served first, and whether the owner finds a job for itself.
module SchedChoice {
  import opened SchedModel
  import opened SchedOwner
  import opened SchedDispatch
  import opened SchedBudget
  import opened SchedBound
  import opened SchedWake
  import opened SchedStrand
  import opened SchedStray
  import opened SchedTheorem
  import opened SchedRound

  // The owner takes n steps alone; `busy` is what it reads from the workers'
  // plain fields of that name, and no compare-and-swap fails.
  function Reading(p: Phase, busy: seq<bool>): Env {
    Env(false,
        match p
        case Pending(k, _, _) => k < |busy| && busy[k]
        case Assign(k, _, _, _) => k < |busy| && !busy[k]
        case _ => false,
        NoMessage, Compute)
  }

  function Solo(s: Sys, busy: seq<bool>, n: nat): Sys
    decreases n
  {
    if n == 0 || !s.Sys? || s.owner < 0 then s else Solo(Step(s, s.owner, Reading(s.phase, busy)), busy, n - 1)
  }

  lemma SoloSteps(s: Sys, busy: seq<bool>, n: nat)
    requires s.Sys? && s.owner >= 0
    ensures Solo(s, busy, n + 1) == Solo(Step(s, s.owner, Reading(s.phase, busy)), busy, n)
  {
  }

  lemma SoloTwice(s: Sys, busy: seq<bool>, n: nat)
    requires s.Sys? && s.owner >= 0
    requires var t := Step(s, s.owner, Reading(s.phase, busy)); t.Sys? && t.owner == s.owner
    ensures var t := Step(s, s.owner, Reading(s.phase, busy));
      Solo(s, busy, n + 2) == Solo(Step(t, t.owner, Reading(t.phase, busy)), busy, n)
  {
    hide Step;
    SoloSteps(s, busy, n + 1);
    SoloSteps(Step(s, s.owner, Reading(s.phase, busy)), busy, n);
  }

  lemma SoloStops(s: Sys, busy: seq<bool>)
    ensures Solo(s, busy, 0) == s
  {
  }

  // ------------------------------------------------------- step 1: collected

  // The finished services of the workers from k on.
  function Published(ws: seq<Worker>, k: nat): seq<nat>
    decreases |ws| - k
  {
    if k >= |ws| then []
    else (if ws[k].done != 0 then [ws[k].done] else []) + Published(ws, k + 1)
  }

  lemma {:induction false} SamePublished(ws: seq<Worker>, vs: seq<Worker>, k: nat)
    requires |vs| == |ws| && forall j | k <= j < |ws| :: vs[j] == ws[j]
    ensures Published(vs, k) == Published(ws, k)
    decreases |ws| - k
  {
    if k < |ws| { SamePublished(ws, vs, k + 1); }
  }

  function Cleared(ws: seq<Worker>, k: nat): seq<Worker> {
    seq(|ws|, j requires 0 <= j < |ws| => if j >= k then ws[j].(done := 0) else ws[j])
  }

  lemma CollectsOne(s: Sys, e: Env)
    requires s.Sys? && 0 <= s.owner < |s.ws| && s.phase.Collect?
    ensures var Collect(k, jobs) := s.phase;
      Step(s, s.owner, e) ==
        if k >= |s.ws| then s.(phase := Route(jobs))
        else s.(ws := s.ws[k := s.ws[k].(done := 0)],
                phase := Collect(k + 1, jobs + if s.ws[k].done != 0 then [s.ws[k].done] else []))
  {
    var Collect(k, jobs) := s.phase;
    if k < |s.ws| && s.ws[k].done == 0 { assert s.ws[k := s.ws[k].(done := 0)] == s.ws && jobs + [] == jobs; }
  }

  // Step 1 takes every finished service, in the order of the workers.
  lemma {:induction false} CollectsAll(s: Sys, busy: seq<bool>) returns (n: nat)
    requires s.Sys? && 0 <= s.owner < |s.ws| && s.phase.Collect? && s.phase.k <= |s.ws|
    ensures Solo(s, busy, n) ==
      s.(ws := Cleared(s.ws, s.phase.k), phase := Route(s.phase.jobs + Published(s.ws, s.phase.k)))
    decreases |s.ws| - s.phase.k
  {
    hide Step, Solo;
    var Collect(k, jobs) := s.phase;
    var t := Step(s, s.owner, Reading(s.phase, busy));
    CollectsOne(s, Reading(s.phase, busy));
    if k == |s.ws| {
      n := 1;
      SoloSteps(s, busy, 0);
      SoloStops(t, busy);
      assert Cleared(s.ws, k) == s.ws && jobs + [] == jobs;
    } else {
      var rest := CollectsAll(t, busy);
      n := rest + 1;
      SoloSteps(s, busy, rest);
      assert Cleared(t.ws, k + 1) == Cleared(s.ws, k);
      SamePublished(s.ws, t.ws, k + 1);
      assert t.phase.jobs + Published(s.ws, k + 1) == jobs + Published(s.ws, k);
    }
  }

  // --------------------------------------------------------- step 3: robbed

  // The job of worker k can be stolen: it waits, and is not bound to k.
  predicate Movable(m: Services, ws: seq<Worker>, k: nat) {
    k < |ws| && ws[k].ready != 0 && BindingOf(m, ws[k].ready) != k
  }

  predicate Robbed(m: Services, ws: seq<Worker>, busy: seq<bool>, k: nat) {
    k < |busy| && busy[k] && Movable(m, ws, k)
  }

  function Stolen(m: Services, ws: seq<Worker>, busy: seq<bool>, k: nat): seq<nat>
    decreases |ws| - k
  {
    if k >= |ws| then []
    else (if Robbed(m, ws, busy, k) then [ws[k].ready] else []) + Stolen(m, ws, busy, k + 1)
  }

  lemma {:induction false} SameStolen(m: Services, ws: seq<Worker>, vs: seq<Worker>, busy: seq<bool>, k: nat)
    requires |vs| == |ws| && forall j | k <= j < |ws| :: vs[j] == ws[j]
    ensures Stolen(m, vs, busy, k) == Stolen(m, ws, busy, k)
    decreases |ws| - k
  {
    if k < |ws| { SameStolen(m, ws, vs, busy, k + 1); }
  }

  function AfterRobbery(m: Services, ws: seq<Worker>, busy: seq<bool>, k: nat): seq<Worker> {
    seq(|ws|, j requires 0 <= j < |ws| => if j >= k && Robbed(m, ws, busy, j) then ws[j].(ready := 0) else ws[j])
  }

  lemma RobsOne(s: Sys, busy: seq<bool>)
    requires s.Sys? && 0 <= s.owner < |s.ws| && s.phase.Pending? && s.phase.k < |s.ws|
    ensures var Pending(k, jobs, from) := s.phase;
      var t := Step(s, s.owner, Reading(s.phase, busy));
      if Robbed(s.services, s.ws, busy, k) then
        && t.Sys? && t.owner == s.owner
        && Step(t, s.owner, Reading(t.phase, busy)) ==
             s.(ws := s.ws[k := s.ws[k].(ready := 0)], phase := Pending(k + 1, jobs + [s.ws[k].ready], from + [k]))
      else t == s.(phase := Pending(k + 1, jobs, from))
  {
  }

  // Step 3 robs just the busy workers, each of the job it has not begun,
  // unless that is bound to it.
  lemma {:induction false} RobsTheBusy(s: Sys, busy: seq<bool>) returns (n: nat)
    requires s.Sys? && 0 <= s.owner < |s.ws| && s.phase.Pending? && s.phase.k <= |s.ws|
    ensures var t := Solo(s, busy, n);
      && t.Sys? && t.phase.Count? && t.phase.k == t.phase.free == 0
      && t == s.(ws := AfterRobbery(s.services, s.ws, busy, s.phase.k), phase := t.phase)
      && t.phase.jobs == s.phase.jobs + Stolen(s.services, s.ws, busy, s.phase.k)
    decreases |s.ws| - s.phase.k
  {
    hide Step, Solo, Robbed, Stolen, AfterRobbery;
    var k := s.phase.k;
    if k == |s.ws| {
      n := 1;
      RobbedAll(s, busy);
    } else {
      var robbed := Robbed(s.services, s.ws, busy, k);
      var t := Step(s, s.owner, Reading(s.phase, busy));
      RobsOne(s, busy);
      var u := if robbed then Step(t, s.owner, Reading(t.phase, busy)) else t;
      var rest := RobsTheBusy(u, busy);
      n := rest + (if robbed then 2 else 1);
      if robbed { SoloTwice(s, busy, rest); } else { SoloSteps(s, busy, rest); }
      RobbedMore(s.services, s.ws, u.ws, busy, k);
      assert u.phase.jobs + Stolen(s.services, u.ws, busy, k + 1) == s.phase.jobs + Stolen(s.services, s.ws, busy, k);
    }
  }

  lemma RobbedAll(s: Sys, busy: seq<bool>)
    requires s.Sys? && 0 <= s.owner < |s.ws| && s.phase.Pending? && s.phase.k == |s.ws|
    ensures Solo(s, busy, 1) == s.(phase := Count(0, 0, s.phase.jobs, s.phase.from))
    ensures AfterRobbery(s.services, s.ws, busy, |s.ws|) == s.ws
    ensures s.phase.jobs + Stolen(s.services, s.ws, busy, |s.ws|) == s.phase.jobs
  {
    SoloSteps(s, busy, 0);
    SoloStops(Step(s, s.owner, Reading(s.phase, busy)), busy);
  }

  lemma RobbedMore(m: Services, ws: seq<Worker>, vs: seq<Worker>, busy: seq<bool>, k: nat)
    requires k < |ws| && vs == if Robbed(m, ws, busy, k) then ws[k := ws[k].(ready := 0)] else ws
    ensures AfterRobbery(m, vs, busy, k + 1) == AfterRobbery(m, ws, busy, k)
    ensures Stolen(m, ws, busy, k) == (if Robbed(m, ws, busy, k) then [ws[k].ready] else []) + Stolen(m, vs, busy, k + 1)
  {
    SameStolen(m, ws, vs, busy, k + 1);
  }

  // ------------------------------------------------------ the owner's own job

  // The first worker from k on with a job to steal.
  function FirstMovable(m: Services, ws: seq<Worker>, k: nat): (j: nat)
    ensures j >= k
    ensures j < |ws| ==> Movable(m, ws, j)
    ensures forall i | k <= i < j && i < |ws| :: !Movable(m, ws, i)
    decreases |ws| - k
  {
    if k >= |ws| || Movable(m, ws, k) then k else FirstMovable(m, ws, k + 1)
  }

  lemma StealsOne(s: Sys, busy: seq<bool>)
    requires s.Sys? && 0 <= s.owner < |s.ws| && s.phase.OwnSteal? && s.phase.k < |s.ws|
    ensures var k, i := s.phase.k, s.owner;
      if Movable(s.services, s.ws, k) then
        Solo(s, busy, 3) ==
          s.(ws := s.ws[k := s.ws[k].(ready := 0)][i := s.ws[k := s.ws[k].(ready := 0)][i].(ready := s.ws[k].ready)],
             phase := Release(false))
      else Step(s, i, Reading(s.phase, busy)) == s.(phase := OwnSteal(k + 1))
  {
    hide Solo;
    var k, i := s.phase.k, s.owner;
    if Movable(s.services, s.ws, k) {
      var t := s.(phase := OwnCas(k, s.ws[k].ready));
      var u := s.(ws := s.ws[k := s.ws[k].(ready := 0)], phase := OwnStore(s.ws[k].ready));
      assert Step(s, i, Reading(s.phase, busy)) == t && Step(t, i, Reading(t.phase, busy)) == u;
      SoloTwice(s, busy, 1);
      SoloSteps(u, busy, 0);
      SoloStops(Step(u, i, Reading(u.phase, busy)), busy);
    }
  }

  lemma {:induction false} Steals(s: Sys, busy: seq<bool>) returns (n: nat)
    requires s.Sys? && 0 <= s.owner < |s.ws| && s.phase.OwnSteal? && s.phase.k <= |s.ws| && s.ws[s.owner].ready == 0
    ensures var j, i := FirstMovable(s.services, s.ws, s.phase.k), s.owner;
      Solo(s, busy, n) ==
        if j >= |s.ws| then s.(phase := Release(true))
        else s.(ws := s.ws[j := s.ws[j].(ready := 0)][i := s.ws[i].(ready := s.ws[j].ready)], phase := Release(false))
    decreases |s.ws| - s.phase.k
  {
    hide Solo, Step;
    var k, i := s.phase.k, s.owner;
    if k == |s.ws| {
      n := 1;
      StealsNothing(s, busy);
    } else {
      StealsOne(s, busy);
      if Movable(s.services, s.ws, k) {
        n := 3;
      } else {
        var rest := Steals(Step(s, i, Reading(s.phase, busy)), busy);
        n := rest + 1;
        SoloSteps(s, busy, rest);
      }
    }
  }

  lemma StealsNothing(s: Sys, busy: seq<bool>)
    requires s.Sys? && 0 <= s.owner < |s.ws| && s.phase.OwnSteal? && s.phase.k == |s.ws|
    ensures Solo(s, busy, 1) == s.(phase := Release(true))
  {
    SoloSteps(s, busy, 0);
    SoloStops(Step(s, s.owner, Reading(s.phase, busy)), busy);
  }

  // When the round is over the owner has a job just when one was given to it,
  // or nothing is bound to it and some worker had one to steal, and it goes to
  // sleep only without one. It steals from the first such worker.
  lemma OwnerFindsAJob(s: Sys, busy: seq<bool>) returns (n: nat)
    requires s.Sys? && 0 <= s.owner < |s.ws| && s.phase.HasJob?
    ensures var t, i := Solo(s, busy, n), s.owner;
      && t.Sys? && t.phase.Release? && t == s.(ws := t.ws, phase := t.phase) && |t.ws| == |s.ws|
      && (t.ws[i].ready != 0 <==>
            s.ws[i].ready != 0 || (s.ws[i].binding == 0 && exists j :: 0 <= j < |s.ws| && Movable(s.services, s.ws, j)))
      && (t.phase.nojob <==> t.ws[i].ready == 0)
      && (s.ws[i].ready != 0 || t.ws[i].ready == 0 ==> t.ws == s.ws)
      && (forall j | 0 <= j < |s.ws| && j != i && t.ws[j] != s.ws[j] ::
            Movable(s.services, s.ws, j) && t.ws[j] == s.ws[j].(ready := 0) && t.ws[i].ready == s.ws[j].ready &&
            forall h | 0 <= h < j :: !Movable(s.services, s.ws, h))
  {
    hide Solo, Step;
    var i := s.owner;
    var t := Step(s, i, Reading(s.phase, busy));
    HasJobIs(s, busy);
    if t.phase.OwnSteal? {
      var rest := Steals(t, busy);
      n := rest + 1;
      SoloSteps(s, busy, rest);
    } else {
      n := 1;
      SoloSteps(s, busy, 0);
      SoloStops(t, busy);
    }
  }

  lemma HasJobIs(s: Sys, busy: seq<bool>)
    requires s.Sys? && 0 <= s.owner < |s.ws| && s.phase.HasJob?
    ensures var w := s.ws[s.owner];
      Step(s, s.owner, Reading(s.phase, busy)) ==
        s.(phase := if w.ready != 0 then Release(false) else if w.binding != 0 then Release(true) else OwnSteal(0))
  {
  }

  // ------------------------------------------------ step 6: the best come first

  // Idle workers with nothing bound to them come first, then busy ones with
  // nothing bound to them, then the others; among equals the lower number.
  function Class(w: Worker, busy: bool): nat {
    if w.binding != 0 then 2 else if busy then 1 else 0
  }

  predicate Better(ws: seq<Worker>, busy: seq<bool>, j: nat, k: nat)
    requires j < |ws| && k < |ws| <= |busy|
  {
    var a, b := Class(ws[j], busy[j]), Class(ws[k], busy[k]);
    a < b || (a == b && j < k)
  }

  // Worker j has been served since `was`.
  predicate Served(was: seq<Worker>, ws: seq<Worker>, j: nat)
    requires j < |was| == |ws|
  {
    was[j].ready == 0 && ws[j].ready != 0
  }

  function Sweep(busy: bool, bound: bool): nat {
    if bound then 2 else if busy then 1 else 0
  }

  // The workers ahead of try k of a sweep all have jobs, and nobody behind it
  // has been served.
  ghost predicate Passed(was: seq<Worker>, ws: seq<Worker>, busy: seq<bool>, sweep: nat, k: nat)
    requires |was| == |ws| <= |busy|
  {
    forall j | 0 <= j < |ws| ::
      var c := Class(ws[j], busy[j]);
      if c < sweep || (c == sweep && j < k) then ws[j].ready != 0 else !Served(was, ws, j)
  }

  ghost predicate Choosing(was: seq<Worker>, s: Sys, busy: seq<bool>)
    requires s.Sys? && |was| == |s.ws| <= |busy|
  {
    && (forall j | 0 <= j < |s.ws| :: s.ws[j].binding == was[j].binding && !s.ws[j].pc.Locked? && (was[j].ready != 0 ==> s.ws[j].ready != 0))
    && match s.phase
      case Assign(k, b, bound, _) => (bound ==> b) && Passed(was, s.ws, busy, Sweep(b, bound), k)
      case AssignWake(k, b, bound, _) => (bound ==> b) && k < |s.ws| && Passed(was, s.ws, busy, Sweep(b, bound), k + 1)
      case Trigger => exists sweep: nat, k: nat :: Passed(was, s.ws, busy, sweep, k)
      case _ => false
  }

  lemma PassedOn(was: seq<Worker>, ws: seq<Worker>, busy: seq<bool>, sweep: nat, k: nat)
    requires |was| == |ws| <= |busy| && Passed(was, ws, busy, sweep, k)
    ensures k >= |ws| && sweep < 2 ==> Passed(was, ws, busy, sweep + 1, 0)
    ensures k < |ws| && (Class(ws[k], busy[k]) == sweep ==> ws[k].ready != 0) ==> Passed(was, ws, busy, sweep, k + 1)
  {
  }

  lemma OneServed(was: seq<Worker>, ws: seq<Worker>, busy: seq<bool>, sweep: nat, k: nat, w: Worker)
    requires |was| == |ws| <= |busy| && Passed(was, ws, busy, sweep, k) && k < |ws|
    requires w.binding == ws[k].binding && w.ready != 0 && Class(ws[k], busy[k]) <= sweep
    ensures Passed(was, ws[k := w], busy, sweep, k + 1)
  {
  }

  // What was in hand is, or has become some worker's job.
  ghost predicate Placed(prep: seq<nat>, s: Sys)
    requires s.Sys?
  {
    forall x | x in prep :: x in Local(s.phase).0 || exists k :: 0 <= k < |s.ws| && s.ws[k].ready == x
  }

  // One try: the scheduler serves worker k, or has a reason to pass it.
  lemma TryOne(s: Sys, busy: seq<bool>)
    requires s.Sys? && Control(s) && Owned(s) && 0 <= s.owner < |s.ws| <= |busy| && s.phase.Assign?
    requires s.phase.prep != [] && s.phase.k < |s.ws|
    ensures var Assign(k, b, bound, prep) := s.phase;
      var w := s.ws[k];
      var t := SchedulerStep(s, Reading(s.phase, busy));
      && t.Sys? && t.owner == s.owner
      && if (b || !busy[k]) && (w.binding == 0 || bound) && w.ready == 0 then
           && t.phase.AssignWake? && t.phase.k == k && t.phase.busy == b && t.phase.bound == bound
           && exists v: Worker :: t.ws == s.ws[k := v] && v.binding == w.binding && v.pc == w.pc && v.ready != 0 &&
                (t.phase.prep == prep || (prep[0] == v.ready && t.phase.prep == prep[1..]))
         else t == s.(phase := Assign(k + 1, b, bound, prep))
  {
    hide Control, Owned, TakeBound, SchedulerStep;
    PrepIsReal(s);
    var Assign(k, b, bound, prep) := s.phase;
    assert prep[0] in prep;
    assert SchedulerStep(s, Reading(s.phase, busy)) == AssignStep(s, k, b, bound, prep, !busy[k]) by { TryIs(s, busy); }
    var t := SchedulerStep(s, Reading(s.phase, busy));
    if s.ws[k].queue != [] {
      NotNull(s, k);
      TakenHead(s.ws[k]);
      assert t.phase.AssignWake? ==> t.ws == s.ws[k := TakeBound(s.ws[k])];
    } else {
      assert t.phase.AssignWake? ==> t.ws == s.ws[k := s.ws[k].(ready := prep[0])];
    }
  }

  lemma TryIs(s: Sys, busy: seq<bool>)
    requires s.Sys? && 0 <= s.owner < |s.ws| <= |busy| && s.phase.Assign? && s.phase.k < |s.ws|
    ensures var Assign(k, b, bound, prep) := s.phase;
      SchedulerStep(s, Reading(s.phase, busy)) == AssignStep(s, k, b, bound, prep, !busy[k])
  {
    hide AssignStep;
  }

  lemma TakenHead(w: Worker)
    requires w.queue != []
    ensures var v := TakeBound(w); v.ready == w.queue[0] && v.binding == w.binding && v.pc == w.pc
  {
  }

  lemma PlacedOne(all: seq<nat>, s: Sys, t: Sys, k: nat, v: Worker)
    requires s.Sys? && t.Sys? && Placed(all, s) && k < |s.ws| && t.ws == s.ws[k := v] && s.ws[k].ready in {0, v.ready}
    requires forall x | x in Local(s.phase).0 :: x != 0 && (x in Local(t.phase).0 || x == v.ready)
    requires forall x | x in all :: x != 0
    ensures Placed(all, t)
  {
    forall x | x in all ensures x in Local(t.phase).0 || exists j :: 0 <= j < |t.ws| && t.ws[j].ready == x {
      if x in Local(s.phase).0 {
        assert t.ws[k].ready == v.ready;
      } else {
        var j :| 0 <= j < |s.ws| && s.ws[j].ready == x;
        assert t.ws[j].ready == x;
      }
    }
  }

  lemma TryChoosing(was: seq<Worker>, all: seq<nat>, s: Sys, busy: seq<bool>)
    requires s.Sys? && Control(s) && Owned(s) && 0 <= s.owner < |s.ws| == |was| <= |busy| && s.phase.Assign?
    requires s.phase.prep != [] && s.phase.k < |s.ws| && Choosing(was, s, busy) && Placed(all, s) && 0 !in all
    ensures var t := SchedulerStep(s, Reading(s.phase, busy));
      t.Sys? && t.owner == s.owner && |t.ws| == |s.ws| && Choosing(was, t, busy) && Placed(all, t)
  {
    hide Control, Owned, SchedulerStep, Passed, Placed;
    TryOne(s, busy);
    PrepIsReal(s);
    var Assign(k, b, bound, prep) := s.phase;
    var t := SchedulerStep(s, Reading(s.phase, busy));
    if t.phase.AssignWake? {
      var v: Worker :| t.ws == s.ws[k := v] && v.binding == s.ws[k].binding && v.pc == s.ws[k].pc && v.ready != 0 &&
        (t.phase.prep == prep || (prep[0] == v.ready && t.phase.prep == prep[1..]));
      OneServed(was, s.ws, busy, Sweep(b, bound), k, v);
      PlacedOne(all, s, t, k, v);
    } else {
      PassedOn(was, s.ws, busy, Sweep(b, bound), k);
      assert t.ws == s.ws[k := s.ws[k]];
      PlacedOne(all, s, t, k, s.ws[k]);
    }
  }

  lemma NextSweep(was: seq<Worker>, all: seq<nat>, s: Sys, busy: seq<bool>)
    requires s.Sys? && Budget(s) && 0 <= s.owner < |s.ws| == |was| <= |busy| && s.phase.Assign?
    requires s.phase.prep == [] || s.phase.k >= |s.ws|
    requires Choosing(was, s, busy) && Placed(all, s)
    ensures var t := SchedulerStep(s, Reading(s.phase, busy));
      t.Sys? && t.owner == s.owner && |t.ws| == |s.ws| && Choosing(was, t, busy) && Placed(all, t)
  {
    hide Passed;
    AssignBudget(s, Reading(s.phase, busy));
    var Assign(k, b, bound, prep) := s.phase;
    if k >= |s.ws| { PassedOn(was, s.ws, busy, Sweep(b, bound), k); }
  }

  lemma WakeChoosing(was: seq<Worker>, all: seq<nat>, s: Sys, busy: seq<bool>)
    requires s.Sys? && 0 <= s.owner < |s.ws| == |was| <= |busy| && s.phase.AssignWake?
    requires Choosing(was, s, busy) && Placed(all, s)
    ensures var t := SchedulerStep(s, Reading(s.phase, busy));
      t.Sys? && t.owner == s.owner && |t.ws| == |s.ws| && Choosing(was, t, busy) && Placed(all, t)
  {
    hide Passed, Placed;
    var k := s.phase.k;
    var v := Wake(s.ws[k]);
    SameClass(was, s.ws, busy, Sweep(s.phase.busy, s.phase.bound), k + 1, k, v);
    SamePlaces(all, s, SchedulerStep(s, Reading(s.phase, busy)), k, v);
  }

  lemma SameClass(was: seq<Worker>, ws: seq<Worker>, busy: seq<bool>, sweep: nat, k: nat, j: nat, v: Worker)
    requires |was| == |ws| <= |busy| && Passed(was, ws, busy, sweep, k) && j < |ws|
    requires v.binding == ws[j].binding && v.ready == ws[j].ready
    ensures Passed(was, ws[j := v], busy, sweep, k)
  {
  }

  lemma SamePlaces(all: seq<nat>, s: Sys, t: Sys, k: nat, v: Worker)
    requires s.Sys? && t.Sys? && Placed(all, s) && k < |s.ws| && t.ws == s.ws[k := v] && v.ready == s.ws[k].ready
    requires Local(t.phase).0 == Local(s.phase).0
    ensures Placed(all, t)
  {
    forall x | x in all && x !in Local(t.phase).0 ensures exists j :: 0 <= j < |t.ws| && t.ws[j].ready == x {
      var j :| 0 <= j < |s.ws| && s.ws[j].ready == x;
      assert t.ws[j].ready == x;
    }
  }

  lemma ChoosingStep(was: seq<Worker>, all: seq<nat>, s: Sys, busy: seq<bool>)
    requires s.Sys? && Good(s) && 0 <= s.owner < |s.ws| == |was| <= |busy| && (s.phase.Assign? || s.phase.AssignWake?)
    requires Choosing(was, s, busy) && Placed(all, s) && 0 !in all
    ensures var t := Step(s, s.owner, Reading(s.phase, busy));
      && t.Sys? && Good(t) && t.owner == s.owner && |t.ws| == |s.ws| && Choosing(was, t, busy) && Placed(all, t)
      && (t.phase.Assign? || t.phase.AssignWake? || t.phase.Trigger?)
      && SweepsLeft(t.phase, |s.ws|) < SweepsLeft(s.phase, |s.ws|)
  {
    hide Control, Owned, Budget, Bound, Awake, Strand, Traced, Choosing, Placed, SchedulerStep, StrayHead, SweepsLeft;
    var e := Reading(s.phase, busy);
    assert Allowed(s, s.owner, e);
    StepKeeps(s, s.owner, e);
    ChoosingAwake(was, s, busy);
    TryUsesUp(s, e);
    if s.phase.AssignWake? {
      WakeChoosing(was, all, s, busy);
    } else if s.phase.prep == [] || s.phase.k >= |s.ws| {
      NextSweep(was, all, s, busy);
    } else {
      TryChoosing(was, all, s, busy);
    }
  }

  lemma ChoosingAwake(was: seq<Worker>, s: Sys, busy: seq<bool>)
    requires s.Sys? && |was| == |s.ws| <= |busy| && Choosing(was, s, busy)
    ensures s.phase.AssignWake? ==> s.phase.k < |s.ws| && !s.ws[s.phase.k].pc.Locked?
  {
  }

  lemma {:induction false} ChoosingRun(was: seq<Worker>, all: seq<nat>, s: Sys, busy: seq<bool>) returns (n: nat)
    requires s.Sys? && Good(s) && 0 <= s.owner < |s.ws| == |was| <= |busy|
    requires s.phase.Assign? || s.phase.AssignWake? || s.phase.Trigger?
    requires Choosing(was, s, busy) && Placed(all, s) && 0 !in all
    ensures var t := Solo(s, busy, n);
      t.Sys? && |t.ws| == |was| && t.phase == Trigger && Choosing(was, t, busy) && Placed(all, t)
    decreases SweepsLeft(s.phase, |s.ws|)
  {
    hide Good, Choosing, Placed, Step, SweepsLeft;
    if s.phase.Trigger? {
      n := 0;
      SoloStops(s, busy);
    } else {
      ChoosingStep(was, all, s, busy);
      var rest := ChoosingRun(was, all, Step(s, s.owner, Reading(s.phase, busy)), busy);
      n := rest + 1;
      SoloSteps(s, busy, rest);
    }
  }

  // Step 6 gives all it has in hand away, and a worker is served only when all
  // the better ones have jobs: idle before busy, and those nothing is bound to
  // before those something is.
  lemma BestWorkersFirst(s: Sys, busy: seq<bool>) returns (n: nat)
    requires s.Sys? && Good(s) && 0 <= s.owner < |s.ws| == |busy| && s.phase.Assign? && s.phase.k == 0
    requires !s.phase.busy && !s.phase.bound && forall j | 0 <= j < |s.ws| :: !s.ws[j].pc.Locked?
    ensures var t := Solo(s, busy, n);
      && t.Sys? && |t.ws| == |s.ws| && t.phase == Trigger
      && (forall x | x in s.phase.prep :: exists k :: 0 <= k < |t.ws| && t.ws[k].ready == x)
      && (forall j, k | 0 <= j < |s.ws| && 0 <= k < |s.ws| && Served(s.ws, t.ws, k) && Better(s.ws, busy, j, k) ::
            t.ws[j].ready != 0)
  {
    hide Good;
    GoodParts(s);
    PrepIsReal(s);
    assert Passed(s.ws, s.ws, busy, 0, 0);
    n := ChoosingRun(s.ws, s.phase.prep, s, busy);
    var t := Solo(s, busy, n);
    forall j, k | 0 <= j < |s.ws| && 0 <= k < |s.ws| && Served(s.ws, t.ws, k) && Better(s.ws, busy, j, k)
      ensures t.ws[j].ready != 0
    {
      var sweep: nat, m: nat :| Passed(s.ws, t.ws, busy, sweep, m);
      assert Class(t.ws[j], busy[j]) == Class(s.ws[j], busy[j]) && Class(t.ws[k], busy[k]) == Class(s.ws[k], busy[k]);
    }
  }
}
