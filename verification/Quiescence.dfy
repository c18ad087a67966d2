// Left alone, the dispatcher comes to rest with every event ended.
module Quiescence {
  import opened Wrappers
  import opened Events
  import opened Sums
  import opened Dispatcher
  import opened Runs
  import opened Slots
  import opened Recovery
  import opened Accounting
  import opened Descendants

  ghost predicate Good(s: State) {
    Accounted(s, true) && Attended(s) && SlotsBalance(s) && AllRunnable(s) && s.leader
  }

  ghost predicate AllEnded(s: State) {
    forall i | 0 <= i < |s.rows| :: Terminal(s.rows[i].status)
  }

  // Steps that a worker still has before it, at most.
  function Rank(p: Phase): nat {
    match p
    case Starting => 5
    case Working => 4
    case Failing => 3
    case Completing => 2
    case Counted => 2
    case Done => 1
    case Released => 0
  }

  function Ranks(s: State): seq<int> {
    seq(|s.workers|, a requires 0 <= a < |s.workers| => Rank(s.workers[a].phase))
  }

  // Attempts left to all rows and their future descendants.
  ghost function AttemptsLeft(s: State): int
    requires |s.hist| == |s.rows|
  {
    Sum(Credits(s, None, true)) - Sum(StartsIn(s, None))
  }

  // A bound on the steps still to come.
  ghost function Energy(s: State): int
    requires |s.hist| == |s.rows|
  {
    7 * AttemptsLeft(s) - |s.queue| + Sum(Ranks(s))
  }

  // A process that has just become leader of a table of new requests.
  lemma FreshIsGood(s: State)
    requires Starts(s)
    requires forall i | 0 <= i < |s.rows| ::
               && s.rows[i].status == New && s.rows[i].retryCount == 0 && Runnable(s.rows[i])
               && s.hist[i] == Trace(0, 0, i)
    ensures Good(Apply(s, Elect(true, true)))
  {
    hide ParseType, Runnable;
    forall i | 0 <= i < |s.rows| ensures ResetRows(s.rows)[i] == s.rows[i] { ResetRowsAt(s.rows, i); }
    assert ResetRows(s.rows) == s.rows;
    FreshIsTallied(s);
  }

  lemma GoodStep(s: State, step: Step)
    requires Good(s) && Enabled(s, step) && Permits(Closed, s, step)
    ensures Good(Apply(s, step))
  {
    AccountedStep(s, step, true);
    AttendedStep(s, step);
    SlotsStep(s, step);
    RunnableStep(s, step);
    hide Accounted, Attended, SlotsBalance, AllRunnable, ParseType, Runnable;
  }

  // ---- Every step costs energy -------------------------------------------------

  lemma StartsRunAct(s: State, w: nat, act: Act)
    requires Wf(s) && Enabled(s, Run(w, act))
    ensures Sum(StartsIn(Apply(s, Run(w, act)), None)) == Sum(StartsIn(s, None))
  {
    hide ParseType, Runnable;
    var t := Apply(s, Run(w, act));
    RunActHist(s, w, act);
    var before, after := StartsIn(s, None), StartsIn(t, None);
    if act.Work? && act.spawn {
      assert after == before + [0];
      SumAppend(before, 0);
    } else {
      assert after == before;
    }
  }

  lemma DispatchOfRunnable(s: State)
    requires Wf(s) && AllRunnable(s) && Enabled(s, Dispatch)
    ensures s.queue[0].id < |s.hist|
    ensures var e, h := s.queue[0], s.hist[s.queue[0].id];
            Apply(s, Dispatch) ==
            s.(queue := s.queue[1..], tokens := s.tokens + 1,
               workers := s.workers + [Worker(e, Starting)],
               hist := s.hist[e.id := h.(starts := h.starts + 1)])
  {
    hide ParseType, Runnable;
    assert Refers(s.rows, s.queue[0]);
    SameKindRunnable(s.rows[s.queue[0].id], s.queue[0]);
  }

  lemma StartsBump(s: State, t: State, id: nat)
    requires id < |s.hist| && t.hist == s.hist[id := s.hist[id].(starts := s.hist[id].starts + 1)]
    ensures Sum(StartsIn(t, None)) == Sum(StartsIn(s, None)) + 1
  {
    var before := StartsIn(s, None);
    assert StartsIn(t, None) == before[id := before[id] + 1];
    SumUpdate(before, id, before[id] + 1);
  }

  lemma StartsDispatch(s: State)
    requires Wf(s) && AllRunnable(s) && Enabled(s, Dispatch)
    ensures Sum(StartsIn(Apply(s, Dispatch), None)) == Sum(StartsIn(s, None)) + 1
  {
    hide Apply, ParseType, Runnable, StartsIn, Wf, AllRunnable;
    DispatchOfRunnable(s);
    StartsBump(s, Apply(s, Dispatch), s.queue[0].id);
  }

  lemma RanksRunAct(s: State, w: nat, act: Act)
    requires Enabled(s, Run(w, act)) && Permits(Closed, s, Run(w, act))
    ensures Sum(Ranks(Apply(s, Run(w, act)))) < Sum(Ranks(s))
  {
    hide ParseType, Runnable;
    var t := Apply(s, Run(w, act));
    RunActMoves(s, w, act);
    var before := Ranks(s);
    var after: int := Rank(NextPhase(act));
    assert t.workers[w].phase == NextPhase(act);
    assert Ranks(t) == before[w := after];
    SumUpdate(before, w, after);
    assert after < before[w];
  }

  lemma RanksDispatch(s: State)
    requires Wf(s) && AllRunnable(s) && Enabled(s, Dispatch)
    ensures Sum(Ranks(Apply(s, Dispatch))) == Sum(Ranks(s)) + 5
  {
    DispatchOfRunnable(s);
    hide Apply, Enabled, Wf, AllRunnable, Runnable, ParseType;
    assert Ranks(Apply(s, Dispatch)) == Ranks(s) + [5];
    SumAppend(Ranks(s), 5);
  }

  lemma FetchKeepsHistory(s: State, paused: set<string>)
    requires Enabled(s, Fetch(paused))
    ensures Apply(s, Fetch(paused)).hist == s.hist
    ensures StartsIn(Apply(s, Fetch(paused)), None) == StartsIn(s, None)
  {
  }

  lemma EnergyDropsFetch(s: State, paused: set<string>)
    requires Wf(s) && Enabled(s, Fetch(paused)) && Permits(Closed, s, Fetch(paused))
    requires AttemptsLeft(Apply(s, Fetch(paused))) == AttemptsLeft(s)
    ensures Energy(Apply(s, Fetch(paused))) < Energy(s)
  {
    hide ParseType, Runnable, AttemptsLeft, FetchPanics;
    FetchesSomething(s);
    assert Ranks(Apply(s, Fetch(paused))) == Ranks(s);
  }

  lemma EnergyDropsDispatch(s: State)
    requires Wf(s) && AllRunnable(s) && Enabled(s, Dispatch)
    requires |Apply(s, Dispatch).hist| == |Apply(s, Dispatch).rows|
    requires AttemptsLeft(Apply(s, Dispatch)) == AttemptsLeft(s) - 1
    ensures Energy(Apply(s, Dispatch)) < Energy(s)
  {
    DispatchOfRunnable(s);
    RanksDispatch(s);
    hide Apply, Enabled, Wf, AllRunnable, Runnable, ParseType, AttemptsLeft;
  }

  lemma EnergyDropsRunAct(s: State, w: nat, act: Act)
    requires Wf(s) && Enabled(s, Run(w, act)) && Permits(Closed, s, Run(w, act))
    requires |Apply(s, Run(w, act)).hist| == |Apply(s, Run(w, act)).rows|
    requires AttemptsLeft(Apply(s, Run(w, act))) == AttemptsLeft(s)
    ensures Energy(Apply(s, Run(w, act))) < Energy(s)
  {
    RanksRunAct(s, w, act);
    RunActMoves(s, w, act);
    hide Apply, Enabled, Wf, ParseType, Runnable, AttemptsLeft, Ranks, Permits;
  }

  lemma EnergyDrops(s: State, step: Step)
    requires Good(s) && Enabled(s, step) && Permits(Closed, s, step)
    ensures |Apply(s, step).hist| == |Apply(s, step).rows|
    ensures Energy(Apply(s, step)) < Energy(s)
  {
    hide Apply, ParseType, Runnable, Credits, StartsIn, Energy;
    CreditsStep(s, step, None, true);
    match step
    case Run(w, act) =>
      StartsRunAct(s, w, act);
      EnergyDropsRunAct(s, w, act);
    case Dispatch =>
      StartsDispatch(s);
      EnergyDropsDispatch(s);
    case Fetch(paused) =>
      FetchKeepsHistory(s, paused);
      EnergyDropsFetch(s, paused);
  }

  lemma FetchesSomething(s: State)
    requires Fetchable(s.rows) != []
    ensures OmitPaused(Fetchable(s.rows), {}) != []
  {
    OmitPausedExact(Fetchable(s.rows), {}, Fetchable(s.rows)[0]);
  }

  lemma EnergyNotNegative(s: State)
    requires Good(s)
    ensures 0 <= Energy(s)
  {
    hide ParseType, Runnable;
    var credits, starts := Credits(s, None, true), StartsIn(s, None);
    var left := seq(|s.rows|, i requires 0 <= i < |s.rows| => credits[i] - starts[i]);
    forall i | 0 <= i < |s.rows| ensures 0 <= left[i] {
      CreditCoversStarts(s, i, true);
    }
    var at := seq(|s.queue|, k requires 0 <= k < |s.queue| => s.queue[k].id);
    forall k | 0 <= k < |at| ensures at[k] < |s.rows| && 1 <= left[at[k]] {
      QueuedHasCredit(s, k);
    }
    SumMinus(credits, starts, left);
    SumCovers(left, at);
    SumMonotone(seq(|s.workers|, a => 0), Ranks(s));
    SumZero(seq(|s.workers|, a => 0));
  }

  lemma QueuedHasCredit(s: State, k: nat)
    requires Accounted(s, true) && k < |s.queue|
    ensures s.queue[k].id < |s.rows|
    ensures s.hist[s.queue[k].id].starts < Credit(s.rows[s.queue[k].id], s.hist[s.queue[k].id], true)
  {
    hide ParseType, Runnable;
    var i := s.queue[k].id;
    assert s.hist[i].starts == s.rows[i].retryCount <= 6;
    if ChildCost(s.rows[i].typ, true) != 0 { SpawnedWithinBudget(s, i, true); }
    CreditAtLeast(s.rows[i], s.hist[i], true);
  }

  // ---- Unless all have ended, some step is possible ------------------------------

  function SomeOutcome(t: EventType): (spawn: bool)
    ensures WorkAllows(t, true, spawn)
  {
    t != HelmRolloutAirflow && SpawnOf(t).Some?
  }

  lemma WorkerCanStep(s: State, w: nat) returns (act: Act)
    requires Wf(s) && SlotsBalance(s) && w < |s.workers| && s.workers[w].phase != Released
    ensures Enabled(s, Run(w, act)) && Permits(Closed, s, Run(w, act))
  {
    if Live(s.workers) == 0 { NoLiveMeansReleased(s.workers); }
    assert Refers(s.rows, s.workers[w].ev) && Runnable(s.workers[w].ev);
    match s.workers[w].phase
    case Starting => act := Mark(true);
    case Working => act := Work(true, SomeOutcome(ParseType(s.workers[w].ev.typ).value));
    case Completing => act := Complete(true);
    case Failing => act := if s.workers[w].ev.retryCount > MAX_RETRIES then GiveUp(true) else Count(true);
    case Counted => act := Requeue(false, true);
    case Done => act := Release;
  }

  lemma NothingProcessing(s: State)
    requires Attended(s) && forall w | 0 <= w < |s.workers| :: s.workers[w].phase == Released
    ensures forall f | f in s.rows :: f.status != Processing
  {
    hide ParseType;
    forall f | f in s.rows ensures f.status != Processing {
      var i :| 0 <= i < |s.rows| && s.rows[i] == f;
    }
  }

  lemma SomethingFetchable(rows: seq<Event>, i: nat)
    requires Ranked(rows) && i < |rows| && Upcoming(rows[i].status)
    requires forall f | f in rows :: f.status != Processing
    ensures Fetchable(rows) != []
  {
    FetchNotEmpty(rows, i);
    assert OmitPaused([], {}) == [];
    hide Fetchable;
  }

  // With nobody at work and nothing queued, whatever has not ended can be fetched.
  lemma FetchPermitted(s: State)
    requires Good(s) && !AllEnded(s) && s.queue == []
    requires forall w | 0 <= w < |s.workers| :: s.workers[w].phase == Released
    ensures Enabled(s, Fetch({})) && Permits(Closed, s, Fetch({}))
  {
    hide ParseType, Runnable, Accounted, Fetchable, SlotsBalance, AllRunnable, Ranked, FetchPanics;
    assert Attended(s) && Ranked(s.rows) && s.leader && AllRunnable(s) by { GoodMeans(s); }
    RunnableCompares(s);
    NothingProcessing(s);
    var i :| 0 <= i < |s.rows| && !Terminal(s.rows[i].status);
    assert s.rows[i] in s.rows;
    SomethingFetchable(s.rows, i);
  }

  lemma RunnableCompares(s: State)
    requires AllRunnable(s)
    ensures !FetchPanics(s.rows)
  {
    forall e | e in s.rows ensures ':' in e.typ { ColonOfReadable(e.typ); }
    ColonsCompare(s.rows);
  }

  lemma GoodMeans(s: State)
    requires Good(s)
    ensures Attended(s) && Ranked(s.rows) && s.leader && AllRunnable(s)
  {
    hide ParseType, Runnable;
  }

  lemma Progress(s: State) returns (step: Step)
    requires Good(s) && !AllEnded(s)
    ensures Enabled(s, step) && Permits(Closed, s, step)
  {
    hide ParseType, Runnable;
    if w: nat :| w < |s.workers| && s.workers[w].phase != Released {
      var act := WorkerCanStep(s, w);
      step := Run(w, act);
    } else if s.queue != [] {
      NoLiveMeansReleased(s.workers);
      step := Dispatch;
    } else {
      step := Fetch({});
      FetchPermitted(s);
    }
  }

  // ---- Quiescence ------------------------------------------------------------------

  // No run without outside input is longer than the energy it starts with.
  lemma {:induction false} RunsAreFinite(s: State, steps: seq<Step>, t: State)
    requires Good(s) && Steps(Closed, s, steps, t)
    ensures Good(t) && 0 <= Energy(t) && |steps| <= Energy(s) - Energy(t)
    decreases |steps|
  {
    if steps == [] {
      EnergyNotNegative(s);
    } else {
      GoodStep(s, steps[0]);
      EnergyDrops(s, steps[0]);
      RunsAreFinite(Apply(s, steps[0]), steps[1..], t);
    }
  }

  // A run that cannot go on has ended every event, and none failed before its seventh
  // attempt.
  lemma RestMeansEnded(s: State, steps: seq<Step>, t: State)
    requires Good(s) && Steps(Closed, s, steps, t)
    requires forall step :: !(Enabled(t, step) && Permits(Closed, t, step))
    ensures AllEnded(t) && forall i | 0 <= i < |t.rows| :: t.rows[i].status in {Completed, Failed, ManualFailed}
    ensures forall i | 0 <= i < |t.rows| && t.rows[i].status == Failed ::
              i < |t.hist| && t.hist[i].starts == 7
  {
    RunsAreFinite(s, steps, t);
    if !AllEnded(t) {
      var step := Progress(t);
    }
    forall i | 0 <= i < |t.rows| && t.rows[i].status == Failed
      ensures t.hist[i].starts == ATTEMPTS
    {
      forall w | 0 <= w < |t.workers| ensures t.workers[w].phase == Released {
        if t.workers[w].phase != Released { var act := WorkerCanStep(t, w); }
      }
      assert NoBusy(t, i);
      assert IdleTallied(t, i);
    }
  }

  // And from every good state there is a run that gets there.
  lemma Quiesces(s: State) returns (steps: seq<Step>, t: State)
    requires Good(s)
    ensures Steps(Closed, s, steps, t) && AllEnded(t) && |steps| <= Energy(s)
    decreases Energy(s)
  {
    EnergyNotNegative(s);
    if AllEnded(s) {
      steps, t := [], s;
    } else {
      var step := Progress(s);
      GoodStep(s, step);
      EnergyDrops(s, step);
      EnergyNotNegative(Apply(s, step));
      var rest;
      rest, t := Quiesces(Apply(s, step));
      steps := [step] + rest;
      assert steps[1..] == rest;
    }
  }

  // ---- From an empty table ----------------------------------------------------------

  // A process with nothing but new requests, before it is elected.
  function Requested(reqs: seq<(string, EventType)>): State {
    State(seq(|reqs|, i requires 0 <= i < |reqs| => NewRow(i, reqs[i].0, reqs[i].1)),
          seq(|reqs|, i requires 0 <= i < |reqs| => Trace(0, 0, i)), [], [], 0, 0, false)
  }

  lemma RequestedIsGood(reqs: seq<(string, EventType)>)
    ensures Good(Apply(Requested(reqs), Elect(true, true)))
  {
    var s := Requested(reqs);
    forall i | 0 <= i < |reqs| ensures Runnable(s.rows[i]) {
      NewRowRunnable(i, reqs[i].0, reqs[i].1);
    }
    hide ParseType, Runnable, TypeName;
    FreshIsGood(s);
  }

  // Whatever is requested, of any types and for any owners: a leader left to itself can
  // bring all of it to an end, and stops nowhere else.
  lemma RequestsEnd(reqs: seq<(string, EventType)>) returns (steps: seq<Step>, t: State)
    ensures Steps(Closed, Apply(Requested(reqs), Elect(true, true)), steps, t) && AllEnded(t)
    ensures forall others, u | Steps(Closed, Apply(Requested(reqs), Elect(true, true)), others, u)
                               && (forall step :: !(Enabled(u, step) && Permits(Closed, u, step))) :: AllEnded(u)
  {
    RequestedIsGood(reqs);
    var s := Apply(Requested(reqs), Elect(true, true));
    hide Good, AllEnded, Steps, Apply, Enabled, Permits, Requested;
    steps, t := Quiesces(s);
    forall others, u | Steps(Closed, s, others, u) && (forall step :: !(Enabled(u, step) && Permits(Closed, u, step)))
      ensures AllEnded(u)
    {
      RestMeansEnded(s, others, u);
    }
  }
}
