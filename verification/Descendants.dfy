// What one request can cause: the attempts at it and at every event descending from it.
module Descendants {
  import opened Wrappers
  import opened Events
  import opened Sums
  import opened Dispatcher
  import opened Runs
  import opened Exclusion
  import opened Accounting

  function SpawnDepth(t: EventType): nat {
    match t
    case UpdateTeam => 3
    case DeleteTeam => 2
    case CreateAirflow => 2
    case UpdateAirflow => 2
    case DeleteAirflow => 1
    case HelmRolloutAirflow => 1
    case _ => 0
  }

  // How many registrations one event can make over its life. When completions are
  // accepted, an event that registers on success does so once.
  function Budget(t: EventType, exact: bool): nat {
    if exact && t != HelmRolloutAirflow then 1 else ATTEMPTS
  }

  function Cost(t: EventType, exact: bool): nat
    decreases SpawnDepth(t)
  {
    ATTEMPTS + match SpawnOf(t)
               case None => 0
               case Some(child) => Budget(t, exact) * Cost(child, exact)
  }

  function BudgetOf(typ: string, exact: bool): nat {
    match ParseType(typ)
    case None => 0
    case Some(t) => Budget(t, exact)
  }

  function ChildCost(typ: string, exact: bool): nat {
    match ParseType(typ)
    case None => 0
    case Some(t) => match SpawnOf(t) case None => 0 case Some(child) => Cost(child, exact)
  }

  // The rows descending from one request, or all rows.
  predicate InFamily(root: nat, family: Option<nat>) {
    family == None || family == Some(root)
  }

  // Attempts that a row and its future descendants may still be charged with.
  function Credit(e: Event, h: Trace, exact: bool): int {
    ATTEMPTS + (BudgetOf(e.typ, exact) - h.spawned) * ChildCost(e.typ, exact)
  }

  function Credits(s: State, r: Option<nat>, exact: bool): (c: seq<int>)
    requires |s.hist| == |s.rows|
    ensures |c| == |s.rows|
  {
    seq(|s.rows|, i requires 0 <= i < |s.rows| =>
      if InFamily(s.hist[i].root, r) then Credit(s.rows[i], s.hist[i], exact) else 0)
  }

  function StartsIn(s: State, r: Option<nat>): (c: seq<int>)
    ensures |c| == |s.hist|
  {
    seq(|s.hist|, i requires 0 <= i < |s.hist| => if InFamily(s.hist[i].root, r) then s.hist[i].starts else 0)
  }

  // All attempts made so far at row r's request and its descendants.
  function FamilyAttempts(s: State, r: nat): int {
    Sum(StartsIn(s, Some(r)))
  }

  lemma NewRowCredit(id: nat, owner: string, t: EventType, root: nat, exact: bool)
    ensures Credit(NewRow(id, owner, t), Trace(0, 0, root), exact) == Cost(t, exact)
  {
    TypeNamesParse(t);
  }

  lemma Distribute(b: int, n: int, c: int)
    ensures (b - (n + 1)) * c == (b - n) * c - c
  {
  }

  lemma CreditOneMore(e: Event, h: Trace, exact: bool)
    ensures Credit(e, h.(spawned := h.spawned + 1), exact) == Credit(e, h, exact) - ChildCost(e.typ, exact)
  {
    Distribute(BudgetOf(e.typ, exact), h.spawned, ChildCost(e.typ, exact));
  }

  lemma ProductAtLeast(base: int, b: int, n: int, c: nat)
    requires c != 0 ==> n <= b
    ensures base <= base + (b - n) * c
  {
    if c != 0 { assert 0 <= (b - n) * c; }
  }

  lemma CreditAtLeast(e: Event, h: Trace, exact: bool)
    requires ChildCost(e.typ, exact) != 0 ==> h.spawned <= BudgetOf(e.typ, exact)
    ensures ATTEMPTS <= Credit(e, h, exact)
  {
    hide ChildCost, BudgetOf;
    ProductAtLeast(ATTEMPTS, BudgetOf(e.typ, exact), h.spawned, ChildCost(e.typ, exact));
  }

  // ---- Credit is conserved ------------------------------------------------------

  lemma CreditsSame(s: State, t: State, r: Option<nat>, exact: bool)
    requires |s.hist| == |s.rows| && |t.hist| == |t.rows| == |s.rows|
    requires Extends(s.rows, t.rows)
    requires forall i | 0 <= i < |s.hist| ::
               t.hist[i].root == s.hist[i].root && t.hist[i].spawned == s.hist[i].spawned
    ensures Credits(t, r, exact) == Credits(s, r, exact)
  {
    hide ParseType, Cost, ChildCost;
    forall i | 0 <= i < |s.rows| ensures Credits(t, r, exact)[i] == Credits(s, r, exact)[i] {
      assert SameKind(t.rows[i], s.rows[i]);
    }
  }

  lemma CreditsInsert(s: State, owner: string, t: EventType, root: nat, r: Option<nat>, exact: bool)
    requires |s.hist| == |s.rows|
    ensures Sum(Credits(Insert(s, owner, t, root), r, exact)) ==
            Sum(Credits(s, r, exact)) + if InFamily(root, r) then Cost(t, exact) else 0
  {
    NewRowCredit(|s.rows|, owner, t, root, exact);
    var c := if InFamily(root, r) then Cost(t, exact) as int else 0;
    assert Credits(Insert(s, owner, t, root), r, exact) == Credits(s, r, exact) + [c];
    SumAppend(Credits(s, r, exact), c);
  }

  // One more registration by row id uses up exactly what the registered event may cost.
  lemma CreditsCharge(s: State, id: nat, r: Option<nat>, exact: bool)
    requires |s.hist| == |s.rows| && id < |s.rows|
    ensures var t := s.(hist := s.hist[id := s.hist[id].(spawned := s.hist[id].spawned + 1)]);
            Sum(Credits(t, r, exact)) ==
            Sum(Credits(s, r, exact)) - if InFamily(s.hist[id].root, r) then ChildCost(s.rows[id].typ, exact) else 0
  {
    var t := s.(hist := s.hist[id := s.hist[id].(spawned := s.hist[id].spawned + 1)]);
    CreditOneMore(s.rows[id], s.hist[id], exact);
    var before, after := Credits(s, r, exact), Credits(t, r, exact);
    forall i | 0 <= i < |s.rows| && i != id ensures after[i] == before[i] {
      assert t.hist[i] == s.hist[i];
    }
    assert after == before[id := after[id]];
    SumUpdate(before, id, after[id]);
  }

  lemma WorkInParts(s: State, w: nat, act: Act)
    requires Wf(s) && Enabled(s, Run(w, act)) && act.Work? && act.spawn
    ensures SpawnOf(ParseType(s.workers[w].ev.typ).value).Some?
    ensures var ev := s.workers[w].ev;
            var c := Move(s, w, act).(hist := s.hist[ev.id := s.hist[ev.id].(spawned := s.hist[ev.id].spawned + 1)]);
            && Apply(s, Run(w, act)) ==
               Insert(c, ev.owner, SpawnOf(ParseType(ev.typ).value).value, s.hist[ev.id].root)
            && c.rows == s.rows
  {
    hide ParseType;
    var id := s.workers[w].ev.id;
    assert s.rows[id := s.rows[id]] == s.rows;
  }

  lemma CreditsWork(s: State, w: nat, act: Act, r: Option<nat>, exact: bool)
    requires Wf(s) && Enabled(s, Run(w, act)) && act.Work? && act.spawn
    ensures |Apply(s, Run(w, act)).hist| == |Apply(s, Run(w, act)).rows|
    ensures Sum(Credits(Apply(s, Run(w, act)), r, exact)) == Sum(Credits(s, r, exact))
  {
    hide ParseType, Runnable, WorkAllows, TypeName, BudgetOf, Credits;
    var ev := s.workers[w].ev;
    WorkInParts(s, w, act);
    var c := s.(hist := s.hist[ev.id := s.hist[ev.id].(spawned := s.hist[ev.id].spawned + 1)]);
    CreditsCharge(s, ev.id, r, exact);
    CreditsInsert(c, ev.owner, SpawnOf(ParseType(ev.typ).value).value, s.hist[ev.id].root, r, exact);
    CreditsOnlyRows(Apply(s, Run(w, act)),
                    Insert(c, ev.owner, SpawnOf(ParseType(ev.typ).value).value, s.hist[ev.id].root), r, exact);
    assert SameKind(s.rows[ev.id], ev);
  }

  lemma CreditsOnlyRows(s: State, t: State, r: Option<nat>, exact: bool)
    requires |s.hist| == |s.rows| && s.rows == t.rows && s.hist == t.hist
    ensures Credits(s, r, exact) == Credits(t, r, exact)
  {
  }

  lemma CreditsStep(s: State, step: Step, r: Option<nat>, exact: bool)
    requires Wf(s) && Enabled(s, step)
    requires step.Register? ==> r.Some? && r.value < |s.rows|
    ensures |Apply(s, step).hist| == |Apply(s, step).rows|
    ensures Sum(Credits(Apply(s, step), r, exact)) == Sum(Credits(s, r, exact))
  {
    ApplyExtends(s, step);
    var t := Apply(s, step);
    if step.Run? && step.act.Work? && step.act.spawn {
      CreditsWork(s, step.w, step.act, r, exact);
    } else if step.Register? {
      CreditsInsert(s, step.owner, step.typ, |s.rows|, r, exact);
    } else {
      CreditsSame(s, t, r, exact);
    }
  }

  // ---- Registrations stay within the budget ---------------------------------------

  ghost predicate SpawnsTallied(s: State) {
    && |s.hist| == |s.rows|
    && (forall i | 0 <= i < |s.hist| :: s.hist[i].spawned <= s.hist[i].starts)
    && (forall a | 0 <= a < |s.workers| && (s.workers[a].phase == Starting || s.workers[a].phase == Working) ::
          s.workers[a].ev.id < |s.hist|
          && s.hist[s.workers[a].ev.id].spawned < s.hist[s.workers[a].ev.id].starts)
  }

  predicate SuccessSpawner(typ: string) {
    var t := ParseType(typ);
    t.Some? && SpawnOf(t.value).Some? && t.value != HelmRolloutAirflow
  }

  // An event that registers on success has registered at most once, and after that its
  // worker only writes the completion.
  ghost predicate SpawnSettled(s: State, i: nat)
    requires i < |s.rows| && i < |s.hist|
  {
    && s.hist[i].spawned == 1
    && (forall a | 0 <= a < |s.workers| && Busy(s.workers[a].phase) && s.workers[a].ev.id == i ::
          s.workers[a].phase == Completing)
    && (NoBusy(s, i) ==> Terminal(s.rows[i].status))
    && (forall k | 0 <= k < |s.queue| :: s.queue[k].id != i)
  }

  ghost predicate SpawnedOnce(s: State) {
    forall i | 0 <= i < |s.rows| && i < |s.hist| && SuccessSpawner(s.rows[i].typ) && s.hist[i].spawned > 0 ::
      SpawnSettled(s, i)
  }

  lemma SpawnsRunAct(s: State, w: nat, act: Act)
    requires Safe(s) && SpawnsTallied(s) && Enabled(s, Run(w, act))
    ensures SpawnsTallied(Apply(s, Run(w, act)))
  {
    hide ParseType, Runnable;
    var t := Apply(s, Run(w, act));
    RunActMoves(s, w, act);
    RunActHist(s, w, act);
    forall a | 0 <= a < |t.workers| && (t.workers[a].phase == Starting || t.workers[a].phase == Working)
      ensures t.hist[t.workers[a].ev.id].spawned < t.hist[t.workers[a].ev.id].starts
    {
      if a != w && Busy(s.workers[w].phase) { OthersElsewhere(s, w, a); }
    }
  }

  lemma SpawnsDispatch(s: State)
    requires Safe(s) && SpawnsTallied(s) && Enabled(s, Dispatch)
    ensures SpawnsTallied(Apply(s, Dispatch))
  {
    SafeDispatch(s);
    var t := Apply(s, Dispatch);
    assert forall i | 0 <= i < |s.hist| ::
        t.hist[i].spawned == s.hist[i].spawned && s.hist[i].starts <= t.hist[i].starts;
  }

  lemma SpawnsStep(s: State, step: Step)
    requires Safe(s) && SpawnsTallied(s) && Enabled(s, step)
    ensures SpawnsTallied(Apply(s, step))
  {
    match step
    case Run(w, act) => SpawnsRunAct(s, w, act);
    case Dispatch => SpawnsDispatch(s);
    case _ =>
  }

  lemma SettledStays(s: State, w: nat, act: Act, i: nat)
    requires Wf(s) && OneWorkerPerEvent(s) && Enabled(s, Run(w, act)) && ExactStep(Run(w, act))
    requires i < |s.rows| && SpawnSettled(s, i)
    ensures |Apply(s, Run(w, act)).hist| == |Apply(s, Run(w, act)).rows| && i < |Apply(s, Run(w, act)).rows|
    ensures SpawnSettled(Apply(s, Run(w, act)), i)
  {
    hide ParseType, Runnable;
    var t := Apply(s, Run(w, act));
    RunActMoves(s, w, act);
    RunActRows(s, w, act);
    RunActHist(s, w, act);
    if s.workers[w].ev.id == i && !act.Release? {
      assert s.workers[w].phase == Completing;
    } else if NoBusy(t, i) {
      MovesKeepBusy(s, t, w, i);
    }
  }

  // The one registration of an event that registers on success.
  lemma SettledBegins(s: State, w: nat)
    requires Safe(s) && Enabled(s, Run(w, Work(true, true)))
    requires s.hist[s.workers[w].ev.id].spawned == 0
    ensures var t, i := Apply(s, Run(w, Work(true, true))), s.workers[w].ev.id;
            i < |t.rows| && i < |t.hist| && SpawnSettled(t, i)
  {
    hide ParseType, Runnable;
    var act := Work(true, true);
    var t := Apply(s, Run(w, act));
    var i := s.workers[w].ev.id;
    RunActMoves(s, w, act);
    RunActRows(s, w, act);
    RunActHist(s, w, act);
    assert t.workers[w].phase == Completing && t.workers[w].ev.id == i;
    forall a | 0 <= a < |t.workers| && a != w && Busy(t.workers[a].phase)
      ensures t.workers[a].ev.id != i
    {
      OthersElsewhere(s, w, a);
    }
    assert !NoBusy(t, i);
  }

  lemma SettledRunAct(s: State, w: nat, act: Act, i: nat)
    requires Safe(s) && SpawnedOnce(s) && Enabled(s, Run(w, act)) && ExactStep(Run(w, act))
    requires i < |s.rows| && SuccessSpawner(s.rows[i].typ) && i < |Apply(s, Run(w, act)).hist|
    requires Apply(s, Run(w, act)).hist[i].spawned > 0
    ensures SpawnSettled(Apply(s, Run(w, act)), i)
  {
    RunActHist(s, w, act);
    if s.hist[i].spawned > 0 {
      SettledStays(s, w, act, i);
    } else {
      assert SameKind(s.rows[i], s.workers[w].ev);
      assert act == Work(true, true);
      SettledBegins(s, w);
    }
  }

  lemma SpawnedOnceRunAct(s: State, w: nat, act: Act)
    requires Safe(s) && SpawnedOnce(s) && Enabled(s, Run(w, act)) && ExactStep(Run(w, act))
    ensures SpawnedOnce(Apply(s, Run(w, act)))
  {
    var t := Apply(s, Run(w, act));
    ApplyExtends(s, Run(w, act));
    RunActHist(s, w, act);
    forall i | 0 <= i < |t.rows| && SuccessSpawner(t.rows[i].typ) && t.hist[i].spawned > 0
      ensures SpawnSettled(t, i)
    {
      assert i < |s.rows|;
      assert SameKind(t.rows[i], s.rows[i]);
      SettledRunAct(s, w, act, i);
    }
  }

  lemma SpawnedOnceFetch(s: State, paused: set<string>)
    requires Safe(s) && SpawnedOnce(s) && Enabled(s, Fetch(paused)) && Settled(s)
    ensures SpawnedOnce(Apply(s, Fetch(paused)))
  {
    var t := Apply(s, Fetch(paused));
    forall i | 0 <= i < |t.rows| && SuccessSpawner(t.rows[i].typ) && t.hist[i].spawned > 0
      ensures SpawnSettled(t, i)
    {
      assert SpawnSettled(s, i);
      forall k | 0 <= k < |t.queue| ensures t.queue[k].id != i {
        FetchExact(s.rows, paused, t.queue[k]);
        assert Upcoming(s.rows[i].status) ==> NoBusy(s, i);
      }
      assert NoBusy(t, i) <==> NoBusy(s, i);
    }
  }

  lemma SpawnedOnceDispatch(s: State)
    requires Safe(s) && SpawnedOnce(s) && Enabled(s, Dispatch)
    ensures SpawnedOnce(Apply(s, Dispatch))
  {
    SafeDispatch(s);
    var t := Apply(s, Dispatch);
    forall i | 0 <= i < |t.rows| && SuccessSpawner(t.rows[i].typ) && t.hist[i].spawned > 0
      ensures SpawnSettled(t, i)
    {
      assert SpawnSettled(s, i);
      assert forall k | 0 <= k < |t.queue| :: t.queue[k] == s.queue[k + 1];
      if NoBusy(t, i) {
        assert forall a | 0 <= a < |s.workers| :: t.workers[a] == s.workers[a];
        assert NoBusy(s, i);
      }
    }
  }

  lemma SpawnedOnceOther(s: State, step: Step)
    requires Safe(s) && SpawnedOnce(s) && Enabled(s, step) && CountedStep(s, step)
    requires step.Register? || step.Elect? || step.Admin?
    ensures SpawnedOnce(Apply(s, step))
  {
    var t := Apply(s, step);
    assert t.workers == s.workers && t.queue == s.queue;
    forall i | 0 <= i < |t.rows| && SuccessSpawner(t.rows[i].typ) && t.hist[i].spawned > 0
      ensures SpawnSettled(t, i)
    {
      assert SpawnSettled(s, i);
      assert NoBusy(t, i) ==> NoBusy(s, i);
    }
  }

  lemma SpawnedOnceStep(s: State, step: Step)
    requires Safe(s) && SpawnedOnce(s) && Enabled(s, step) && Permits(Exact, s, step)
    ensures SpawnedOnce(Apply(s, step))
  {
    match step
    case Run(w, act) => SpawnedOnceRunAct(s, w, act);
    case Fetch(paused) => SpawnedOnceFetch(s, paused);
    case Dispatch => SpawnedOnceDispatch(s);
    case Crash => assert false;
    case _ => SpawnedOnceOther(s, step);
  }

  // ---- The bound ---------------------------------------------------------------------

  ghost predicate Accounted(s: State, exact: bool) {
    Tallied(s) && SpawnsTallied(s) && (exact ==> SpawnedOnce(s))
    && forall i | 0 <= i < |s.hist| :: s.hist[i].root <= i
  }

  lemma RootsStep(s: State, step: Step)
    requires Wf(s) && Enabled(s, step) && forall i | 0 <= i < |s.hist| :: s.hist[i].root <= i
    ensures forall i | 0 <= i < |Apply(s, step).hist| :: Apply(s, step).hist[i].root <= i
  {
    if step.Run? { RunActHist(s, step.w, step.act); }
  }

  lemma AccountedStep(s: State, step: Step, exact: bool)
    requires Accounted(s, exact) && Enabled(s, step) && Permits(if exact then Exact else Accountable, s, step)
    ensures Accounted(Apply(s, step), exact)
  {
    TalliedStep(s, step);
    SpawnsStep(s, step);
    RootsStep(s, step);
    if exact { SpawnedOnceStep(s, step); }
  }

  lemma {:induction false} AccountedRun(s: State, steps: seq<Step>, t: State, exact: bool, r: nat)
    requires Accounted(s, exact) && r < |s.rows|
    requires Steps(if exact then Exact else Accountable, s, steps, t)
    ensures Accounted(t, exact) && Sum(Credits(t, Some(r), exact)) == Sum(Credits(s, Some(r), exact))
    decreases |steps|
  {
    if steps != [] {
      AccountedStep(s, steps[0], exact);
      CreditsStep(s, steps[0], Some(r), exact);
      ApplyExtends(s, steps[0]);
      AccountedRun(Apply(s, steps[0]), steps[1..], t, exact, r);
    }
  }

  lemma CreditCoversStarts(s: State, i: nat, exact: bool)
    requires Accounted(s, exact) && i < |s.rows|
    ensures s.hist[i].starts <= Credit(s.rows[i], s.hist[i], exact)
  {
    assert s.hist[i].spawned <= s.hist[i].starts <= ATTEMPTS;
    if ChildCost(s.rows[i].typ, exact) != 0 { SpawnedWithinBudget(s, i, exact); }
    CreditAtLeast(s.rows[i], s.hist[i], exact);
  }

  lemma SpawnedWithinBudget(s: State, i: nat, exact: bool)
    requires SpawnsTallied(s) && (exact ==> SpawnedOnce(s)) && i < |s.rows| && s.hist[i].starts <= ATTEMPTS
    requires ChildCost(s.rows[i].typ, exact) != 0
    ensures s.hist[i].spawned <= BudgetOf(s.rows[i].typ, exact)
  {
    var t := ParseType(s.rows[i].typ).value;
    if exact && t != HelmRolloutAirflow && s.hist[i].spawned > 0 {
      assert SuccessSpawner(s.rows[i].typ);
      assert SpawnSettled(s, i);
    }
  }

  lemma FamilyWithinCredit(s: State, r: nat, exact: bool)
    requires Accounted(s, exact)
    ensures FamilyAttempts(s, r) <= Sum(Credits(s, Some(r), exact))
  {
    forall i | 0 <= i < |s.rows| ensures StartsIn(s, Some(r))[i] <= Credits(s, Some(r), exact)[i] {
      CreditCoversStarts(s, i, exact);
    }
    SumMonotone(StartsIn(s, Some(r)), Credits(s, Some(r), exact));
  }

  lemma NewFamilyCredit(s: State, owner: string, t: EventType, exact: bool)
    requires Wf(s) && forall i | 0 <= i < |s.hist| :: s.hist[i].root <= i
    ensures Sum(Credits(Apply(s, Register(owner, t)), Some(|s.rows|), exact)) == Cost(t, exact)
  {
    CreditsInsert(s, owner, t, |s.rows|, Some(|s.rows|), exact);
    SumZero(Credits(s, Some(|s.rows|), exact));
  }

  // One request of type t causes at most Cost(t) attempts, counting every event that
  // descends from it, however the run goes and whatever else is going on in it.
  lemma RequestBound(s: State, owner: string, t: EventType, steps: seq<Step>, u: State, exact: bool)
    requires Accounted(s, exact)
    requires Steps(if exact then Exact else Accountable, Apply(s, Register(owner, t)), steps, u)
    ensures FamilyAttempts(u, |s.rows|) <= Cost(t, exact)
  {
    AccountedStep(s, Register(owner, t), exact);
    NewFamilyCredit(s, owner, t, exact);
    AccountedRun(Apply(s, Register(owner, t)), steps, u, exact, |s.rows|);
    FamilyWithinCredit(u, |s.rows|, exact);
  }

  lemma CostsAre(exact: bool)
    ensures forall t | t in {CreateTeam, CreateUserGSM, DeleteUserGSM, HelmRollbackAirflow, HelmUninstallAirflow,
                             DeleteSchedulerPods} :: Cost(t, exact) == 7
    ensures Cost(HelmRolloutAirflow, exact) == 56
    ensures Cost(DeleteAirflow, exact) == if exact then 14 else 56
    ensures Cost(DeleteTeam, exact) == if exact then 21 else 399
    ensures Cost(CreateAirflow, exact) == Cost(UpdateAirflow, exact) == if exact then 63 else 399
    ensures Cost(UpdateTeam, exact) == if exact then 70 else 2800
  {
    assert Cost(HelmRollbackAirflow, exact) == 7 && Cost(HelmUninstallAirflow, exact) == 7;
    assert Cost(HelmRolloutAirflow, exact) == 56;
    assert Cost(DeleteAirflow, exact) == if exact then 14 else 56;
    assert Cost(UpdateAirflow, exact) == if exact then 63 else 399;
  }

  // For an update of a team: 2800 attempts at most, and 70 where completions are accepted.
  lemma UpdateTeamBound(s: State, owner: string, steps: seq<Step>, u: State, exact: bool)
    requires Accounted(s, exact)
    requires Steps(if exact then Exact else Accountable, Apply(s, Register(owner, UpdateTeam)), steps, u)
    ensures FamilyAttempts(u, |s.rows|) <= if exact then 70 else 2800
  {
    RequestBound(s, owner, UpdateTeam, steps, u, exact);
    CostsAre(exact);
  }
}
