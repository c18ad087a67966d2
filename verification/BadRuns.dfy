// What happens when a promise about the environment is broken. Each lemma gives a run of
// the code as it is, starting from one new request, that ends badly.
module BadRuns {
  import opened Events
  import opened Dispatcher
  import opened Runs
  import opened Slots

  // One request of a type that the dispatcher can read, and a leader with nothing to do.
  predicate OneRequest(e: Event) {
    IsSelectable(e) && e.retryCount == 0
  }

  predicate IsSelectable(e: Event) {
    e.id == 0 && Upcoming(e.status) && Runnable(e)
  }

  // As every Register function makes.
  lemma RegisteredIsRequest(owner: string, t: EventType)
    ensures OneRequest(NewRow(0, owner, t))
  {
    NewRowRunnable(0, owner, t);
  }

  function LeaderOf(e: Event): State {
    State([e], [Trace(0, 0, 0)], [], [], 0, 0, true)
  }

  lemma OneRowFetch(e: Event)
    requires Upcoming(e.status)
    ensures OmitPaused(Fetchable([e]), {}) == [e]
  {
    hide ParseType;
    assert [e][..0] == [];
    assert UpcomingRows([e]) == [e];
    assert ProcessingRows([e]) == [];
    assert Dispatchable([], [e]) == [e];
  }

  lemma StepsThen(s: State, steps: seq<Step>, t: State, more: seq<Step>, u: State)
    requires Steps(Anything, s, steps, t) && Steps(Anything, t, more, u)
    ensures Steps(Anything, s, steps + more, u)
    decreases |steps|
  {
    hide Apply, Enabled, Permits;
    if steps == [] {
      assert steps + more == more;
    } else {
      StepsThen(Apply(s, steps[0]), steps[1..], t, more, u);
      assert (steps + more)[1..] == steps[1..] + more;
    }
  }

  lemma OneStep(s: State, step: Step)
    requires Enabled(s, step)
    ensures Steps(Anything, s, [step], Apply(s, step))
  {
    hide Apply, Enabled;
    assert [step][1..] == [];
    assert Steps(Anything, Apply(s, step), [], Apply(s, step));
  }

  // Fetch, dispatch and mark the only row.
  lemma TakeUp(s: State, e: Event, h: Trace) returns (steps: seq<Step>, t: State)
    requires s.rows == [e] && s.hist == [h] && IsSelectable(e) && s.queue == [] && s.leader
    requires s.tokens < SLOTS
    ensures Steps(Anything, s, steps, t)
    ensures t == s.(rows := [e.(status := Processing)], tokens := s.tokens + 1,
                    workers := s.workers + [Worker(e, Working)], hist := [h.(starts := h.starts + 1)])
  {
    hide ParseType, Runnable;
    var s2;
    steps, s2 := FetchAndDispatch(s, e, h);
    var w := |s.workers|;
    t := Apply(s2, Run(w, Mark(true)));
    assert t.workers == s.workers + [Worker(e, Working)];
    assert t.rows == [e.(status := Processing)];
    OneStep(s2, Run(w, Mark(true)));
    StepsThen(s, steps, s2, [Run(w, Mark(true))], t);
    steps := steps + [Run(w, Mark(true))];
  }

  lemma FetchOne(s: State, e: Event)
    requires s.rows == [e] && e.id == 0 && Upcoming(e.status) && s.queue == [] && s.leader
    ensures Enabled(s, Fetch({})) && Apply(s, Fetch({})) == s.(queue := [e])
  {
    hide ParseType, Fetchable, OmitPaused, FetchPanics;
    OneRowFetch(e);
    LoneRowCompares(s.rows, 0);
  }

  lemma DispatchOne(s: State, e: Event, h: Trace)
    requires s.queue == [e] && s.hist == [h] && e.id == 0 && Runnable(e) && s.tokens < SLOTS
    ensures Apply(s, Dispatch) ==
            s.(queue := [], tokens := s.tokens + 1, workers := s.workers + [Worker(e, Starting)],
               hist := [h.(starts := h.starts + 1)])
  {
    hide ParseType, Runnable;
  }

  lemma FetchAndDispatch(s: State, e: Event, h: Trace) returns (steps: seq<Step>, t: State)
    requires s.rows == [e] && s.hist == [h] && IsSelectable(e) && s.queue == [] && s.leader
    requires s.tokens < SLOTS
    ensures Steps(Anything, s, steps, t)
    ensures t == s.(tokens := s.tokens + 1, workers := s.workers + [Worker(e, Starting)],
                    hist := [h.(starts := h.starts + 1)])
  {
    FetchOne(s, e);
    var s1 := s.(queue := [e]);
    DispatchOne(s1, e, h);
    t := Apply(s1, Dispatch);
    hide ParseType, Runnable, Apply, Steps, Upcoming;
    OneStep(s, Fetch({}));
    OneStep(s1, Dispatch);
    StepsThen(s, [Fetch({})], s1, [Dispatch], t);
    steps := [Fetch({})] + [Dispatch];
  }

  ghost predicate BothAtWork(t: State, a: nat, b: nat) {
    && a < |t.workers| && b < |t.workers| && a != b
    && t.workers[a].phase == Working && t.workers[b].phase == Working
    && t.workers[a].ev.id == t.workers[b].ev.id
  }

  ghost predicate TwoAtWork(t: State) {
    exists a, b :: BothAtWork(t, a, b)
  }

  // Losing leadership resets the events of workers that are still at work. When the
  // process becomes leader again it starts a second worker for the same event.
  lemma LeadershipLossDoubles(e: Event) returns (steps: seq<Step>, t: State)
    requires OneRequest(e)
    ensures Steps(Anything, LeaderOf(e), steps, t) && TwoAtWork(t)
  {
    hide ParseType, Runnable;
    var s1, again;
    steps, s1 := TakeUp(LeaderOf(e), e, Trace(0, 0, 0));
    var lost, back := Elect(false, true), Elect(true, true);
    var s2 := Apply(s1, lost);
    var e2 := e.(status := Pending);
    ResetRowsAt(s1.rows, 0);
    assert s2.rows == [e2];
    var s3 := Apply(s2, back);
    ResetRowsAt(s2.rows, 0);
    assert s3.rows == [e2];
    SameKindRunnable(e, e2);
    OneStep(s1, lost);
    OneStep(s2, back);
    StepsThen(s1, [lost], s2, [back], s3);
    StepsThen(LeaderOf(e), steps, s1, [lost] + [back], s3);
    again, t := TakeUp(s3, e2, Trace(1, 0, 0));
    StepsThen(LeaderOf(e), steps + ([lost] + [back]), s3, again, t);
    steps := steps + ([lost] + [back]) + again;
    assert BothAtWork(t, 0, 1);
  }

  // So does the administrator who sets an event back to new while it is processing.
  lemma AdminResetDoubles(e: Event) returns (steps: seq<Step>, t: State)
    requires OneRequest(e)
    ensures Steps(Anything, LeaderOf(e), steps, t) && TwoAtWork(t)
  {
    hide ParseType, Runnable;
    var s1, again;
    steps, s1 := TakeUp(LeaderOf(e), e, Trace(0, 0, 0));
    var s2 := Apply(s1, Admin(0, New));
    assert s2.rows == [e.(status := New)];
    OneStep(s1, Admin(0, New));
    StepsThen(LeaderOf(e), steps, s1, [Admin(0, New)], s2);
    SameKindRunnable(e, e.(status := New));
    again, t := TakeUp(s2, e.(status := New), Trace(1, 0, 0));
    StepsThen(LeaderOf(e), steps + [Admin(0, New)], s2, again, t);
    steps := steps + [Admin(0, New)] + again;
    assert BothAtWork(t, 0, 1);
  }

  // And so does a fetch that comes before the dispatched event has been marked.
  lemma EarlyFetchDoubles(e: Event) returns (steps: seq<Step>, t: State)
    requires OneRequest(e)
    ensures Steps(Anything, LeaderOf(e), steps, t) && TwoAtWork(t)
  {
    hide ParseType, Runnable;
    var s1, s2, again;
    steps, s1 := FetchAndDispatch(LeaderOf(e), e, Trace(0, 0, 0));
    again, s2 := TakeUp(s1, e, Trace(1, 0, 0));
    StepsThen(LeaderOf(e), steps, s1, again, s2);
    var late := Run(0, Mark(true));
    t := Apply(s2, late);
    OneStep(s2, late);
    StepsThen(LeaderOf(e), steps + again, s2, [late], t);
    steps := steps + again + [late];
    assert BothAtWork(t, 0, 1);
  }

  // And so does a fetch while a worker whose mark was refused still keeps its books: when it
  // sets the event back to pending, another is already at work on it.
  lemma RefusedMarkDoubles(e: Event) returns (steps: seq<Step>, t: State)
    requires OneRequest(e)
    ensures Steps(Anything, LeaderOf(e), steps, t) && TwoAtWork(t)
  {
    var s, books, more;
    steps, s := RefusedThenTaken(e);
    var pending := e.(status := Pending, retryCount := 1);
    var u := s.(rows := [pending], workers := [Worker(e, Done), Worker(e, Working)]);
    SameKindRunnable(e, pending);
    assert IsSelectable(pending);
    hide ParseType, Runnable, Apply, Enabled, Steps, IsSelectable, OneRequest;
    books := BooksOfFirst(s, e, u);
    more, t := TakeUp(u, pending, Trace(2, 0, 0));
    StepsThen(LeaderOf(e), steps, s, books, u);
    StepsThen(LeaderOf(e), steps + books, u, more, t);
    steps := steps + books + more;
    assert BothAtWork(t, 1, 2);
  }

  // One worker keeps its books, and another has taken the event up.
  lemma RefusedThenTaken(e: Event) returns (steps: seq<Step>, t: State)
    requires OneRequest(e)
    ensures Steps(Anything, LeaderOf(e), steps, t)
    ensures t == State([e.(status := Processing)], [Trace(2, 0, 0)], [], [Worker(e, Failing), Worker(e, Working)],
                       2, 0, true)
  {
    assert IsSelectable(e) && e.id == 0;
    hide ParseType, Runnable, Apply, Enabled, Steps, IsSelectable, OneRequest;
    var started, s, again;
    started, s := FetchAndDispatch(LeaderOf(e), e, Trace(0, 0, 0));
    var refused := s.(workers := [Worker(e, Failing)]);
    RefusedMark(s, e, refused);
    StepsThen(LeaderOf(e), started, s, [Run(0, Mark(false))], refused);
    again, t := TakeUp(refused, e, Trace(1, 0, 0));
    StepsThen(LeaderOf(e), started + [Run(0, Mark(false))], refused, again, t);
    steps := started + [Run(0, Mark(false))] + again;
  }

  lemma RefusedMark(s: State, e: Event, t: State)
    requires s.workers == [Worker(e, Starting)] && s.rows == [e] && |s.hist| == 1 && e.id == 0
    requires t == s.(workers := [Worker(e, Failing)])
    ensures Steps(Anything, s, [Run(0, Mark(false))], t)
  {
    hide ParseType, Runnable;
    assert Apply(s, Run(0, Mark(false))) == t;
    OneStep(s, Run(0, Mark(false)));
  }

  lemma BooksOfFirst(s: State, e: Event, t: State) returns (steps: seq<Step>)
    requires s.workers == [Worker(e, Failing), Worker(e, Working)] && |s.hist| == 1 && e.id == 0 && e.retryCount == 0
    requires s.rows == [e.(status := Processing)]
    requires t == s.(rows := [e.(status := Pending, retryCount := 1)],
                     workers := [Worker(e, Done), Worker(e, Working)])
    ensures Steps(Anything, s, steps, t)
  {
    hide ParseType, Runnable;
    var counted := Apply(s, Run(0, Count(true)));
    assert counted.rows == [e.(status := Processing, retryCount := 1)];
    assert counted.workers == [Worker(e, Counted), Worker(e, Working)];
    assert Apply(counted, Run(0, Requeue(false, true))) == t;
    OneStep(s, Run(0, Count(true)));
    OneStep(counted, Run(0, Requeue(false, true)));
    hide Apply, Enabled, Steps;
    StepsThen(s, [Run(0, Count(true))], counted, [Run(0, Requeue(false, true))], t);
    steps := [Run(0, Count(true))] + [Run(0, Requeue(false, true))];
  }

  // ---- Retry counts that are not stored ---------------------------------------------

  ghost predicate Resting(s: State, e: Event, n: nat) {
    && s.rows == [e] && OneRequest(e) && s.queue == [] && s.leader && s.tokens == 0
    && s.hist == [Trace(n, 0, 0)]
  }

  // One more act of the last worker, at the end of a run.
  lemma ActThen(s: State, before: seq<Step>, u: State, others: seq<Worker>, e: Event, row: Event, p: Phase, act: Act)
      returns (steps: seq<Step>, t: State)
    requires Steps(Anything, s, before, u)
    requires u.rows == [row] && |u.hist| == 1 && e.id == 0 && u.tokens > 0
    requires u.workers == others + [Worker(e, p)] && ActEnabled(Worker(e, p), act)
    requires act.Work? ==> !act.spawn
    ensures Steps(Anything, s, steps, t)
    ensures t == u.(rows := [NextRow(row, act)], workers := others + [Worker(e, NextPhase(act))],
                    tokens := if act.Release? then u.tokens - 1 else u.tokens)
  {
    hide ParseType, Runnable, Steps;
    var step := Run(|others|, act);
    OneStep(u, step);
    t := Apply(u, step);
    assert t.rows == [NextRow(row, act)];
    assert t.workers == others + [Worker(e, NextPhase(act))];
    StepsThen(s, before, u, [step], t);
    steps := before + [step];
  }

  lemma AnyWorkCanFail(e: Event)
    requires Runnable(e)
    ensures ActEnabled(Worker(e, Working), Work(false, false))
  {
  }

  lemma FailedAttempt(s: State, e: Event, h: Trace) returns (steps: seq<Step>, t: State)
    requires s.rows == [e] && s.hist == [h] && OneRequest(e) && s.queue == [] && s.leader
    requires s.tokens < SLOTS
    ensures Steps(Anything, s, steps, t)
    ensures t == s.(rows := [e.(status := Processing)], tokens := s.tokens + 1,
                    workers := s.workers + [Worker(e, Failing)], hist := [h.(starts := h.starts + 1)])
  {
    AnyWorkCanFail(e);
    var row := e.(status := Processing);
    assert NextRow(row, Work(false, false)) == row && NextPhase(Work(false, false)) == Failing;
    hide ParseType, Runnable, Steps, ActEnabled, Apply, Enabled, WorkAllows, NextRow, NextPhase, OneRequest;
    var taken, u := TakeUp(s, e, h);
    steps, t := ActThen(s, taken, u, s.workers, e, row, Working, Work(false, false));
  }

  // A failed attempt whose increment the database refuses: the refusal is only logged,
  // and the event is as ready for another attempt as before.
  lemma UncountedAttempt(s: State, e: Event, n: nat) returns (steps: seq<Step>, t: State)
    requires Resting(s, e, n)
    ensures Steps(Anything, s, steps, t) && Resting(t, e.(status := Pending), n + 1)
  {
    hide ParseType, Runnable, Steps, WorkAllows;
    SameKindRunnable(e, e.(status := Pending));
    var row := e.(status := Processing);
    steps, t := FailedAttempt(s, e, Trace(n, 0, 0));
    steps, t := ActThen(s, steps, t, s.workers, e, row, Failing, Count(false));
    steps, t := ActThen(s, steps, t, s.workers, e, row, Counted, Requeue(false, true));
    steps, t := ActThen(s, steps, t, s.workers, e, e.(status := Pending), Done, Release);
  }

  // Without stored increments there is no bound on the attempts at one event.
  lemma {:induction false} UncountedRetriesUnbounded(e: Event, n: nat) returns (steps: seq<Step>, t: State)
    requires OneRequest(e)
    ensures Steps(Anything, LeaderOf(e), steps, t) && |t.hist| == 1 && t.hist[0].starts == n
    ensures exists e' :: Resting(t, e', n)
    decreases n
  {
    hide ParseType, Runnable;
    if n == 0 {
      steps, t := [], LeaderOf(e);
      assert Resting(t, e, 0);
    } else {
      var before, more;
      steps, before := UncountedRetriesUnbounded(e, n - 1);
      var e' :| Resting(before, e', n - 1);
      more, t := UncountedAttempt(before, e', n - 1);
      StepsThen(LeaderOf(e), steps, before, more, t);
      steps := steps + more;
      assert Resting(t, e'.(status := Pending), n);
    }
  }
}
