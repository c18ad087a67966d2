// How often an event is attempted. Without resets the stored retry count is the number of
// failed attempts, and there are at most seven.
module Accounting {
  import opened Events
  import opened Dispatcher
  import opened Runs
  import opened Exclusion

  const ATTEMPTS: nat := MAX_RETRIES + 2

  ghost predicate RowsTallied(s: State) {
    && |s.hist| == |s.rows|
    && forall i | 0 <= i < |s.rows| ::
         && s.rows[i].retryCount <= MAX_RETRIES + 1
         && s.rows[i].retryCount <= s.hist[i].starts <= s.rows[i].retryCount + 1
  }

  ghost predicate WorkerTallied(s: State, w: Worker) {
    var i := w.ev.id;
    && i < |s.rows| && i < |s.hist|
    && s.hist[i].starts == w.ev.retryCount + 1
    && s.rows[i].retryCount == w.ev.retryCount + if w.phase == Counted then 1 else 0
  }

  ghost predicate WorkersTallied(s: State) {
    forall a | 0 <= a < |s.workers| && Busy(s.workers[a].phase) :: WorkerTallied(s, s.workers[a])
  }

  // An event that nobody handles: every attempt so far has been counted, and a failed one
  // has used all its attempts.
  ghost predicate IdleTallied(s: State, i: nat)
    requires i < |s.rows| && i < |s.hist|
  {
    && (Upcoming(s.rows[i].status) ==> s.hist[i].starts == s.rows[i].retryCount)
    && (s.rows[i].status == Failed ==> s.hist[i].starts == ATTEMPTS)
  }

  ghost predicate IdlesTallied(s: State) {
    forall i | 0 <= i < |s.rows| && i < |s.hist| && NoBusy(s, i) :: IdleTallied(s, i)
  }

  ghost predicate QueueTallied(s: State) {
    forall k | 0 <= k < |s.queue| ::
      var i := s.queue[k].id;
      && i < |s.rows| && i < |s.hist|
      && s.queue[k].retryCount == s.rows[i].retryCount == s.hist[i].starts
  }

  ghost predicate Tallied(s: State) {
    Safe(s) && RowsTallied(s) && WorkersTallied(s) && IdlesTallied(s) && QueueTallied(s)
  }

  ghost predicate AccountableStep(s: State, step: Step) {
    OrderlyStep(s, step) && CountedStep(s, step)
  }

  // ---- One step ---------------------------------------------------------------

  lemma RunActHist(s: State, w: nat, act: Act)
    requires Wf(s) && Enabled(s, Run(w, act))
    ensures var t, id := Apply(s, Run(w, act)), s.workers[w].ev.id;
            && |t.hist| == |t.rows|
            && (forall i | 0 <= i < |s.hist| ::
                  t.hist[i].starts == s.hist[i].starts && t.hist[i].root == s.hist[i].root)
            && (forall i | 0 <= i < |s.hist| && i != id :: t.hist[i] == s.hist[i])
            && (!(act.Work? && act.spawn) ==> t.hist == s.hist && |t.rows| == |s.rows|)
            && (act.Work? && act.spawn ==>
                  (|t.rows| == |s.rows| + 1
                   && t.hist[id] == s.hist[id].(spawned := s.hist[id].spawned + 1)
                   && t.hist[|s.rows|] == Trace(0, 0, s.hist[id].root)
                   && t.rows[|s.rows|].retryCount == 0))
  {
  }

  // Only the acting worker is busy with its event.
  lemma OthersElsewhere(s: State, w: nat, a: nat)
    requires OneWorkerPerEvent(s) && w < |s.workers| && a < |s.workers| && a != w
    requires Busy(s.workers[w].phase) && Busy(s.workers[a].phase)
    ensures s.workers[a].ev.id != s.workers[w].ev.id
  {
    if a < w {
      assert s.workers[a].ev.id != s.workers[w].ev.id;
    } else {
      assert s.workers[w].ev.id != s.workers[a].ev.id;
    }
  }

  lemma TalliedRunActRows(s: State, w: nat, act: Act)
    requires Tallied(s) && Enabled(s, Run(w, act)) && CountedStep(s, Run(w, act))
    ensures RowsTallied(Apply(s, Run(w, act)))
  {
    hide ParseType, Runnable;
    RunActRows(s, w, act);
    RunActHist(s, w, act);
    assert act.Release? || WorkerTallied(s, s.workers[w]);
  }

  lemma TalliedRunActWorkers(s: State, w: nat, act: Act)
    requires Tallied(s) && Enabled(s, Run(w, act)) && CountedStep(s, Run(w, act))
    ensures WorkersTallied(Apply(s, Run(w, act)))
  {
    var t := Apply(s, Run(w, act));
    RunActMoves(s, w, act);
    RunActRows(s, w, act);
    RunActHist(s, w, act);
    forall a | 0 <= a < |t.workers| && Busy(t.workers[a].phase)
      ensures WorkerTallied(t, t.workers[a])
    {
      assert WorkerTallied(s, s.workers[a]);
      if a != w && Busy(s.workers[w].phase) { OthersElsewhere(s, w, a); }
    }
  }

  lemma MovesKeepBusy(s: State, t: State, w: nat, i: nat)
    requires Moves(s, t, w) && NoBusy(t, i)
    requires Busy(s.workers[w].phase) ==> s.workers[w].ev.id != i
    ensures NoBusy(s, i)
  {
    forall a | 0 <= a < |s.workers| && Busy(s.workers[a].phase) ensures s.workers[a].ev.id != i {
      if a != w { assert t.workers[a].ev.id != i; }
    }
  }

  // The acting worker has just left its own event.
  lemma TalliedRunActOwn(s: State, w: nat, act: Act)
    requires |s.hist| == |s.rows| && Enabled(s, Run(w, act)) && CountedStep(s, Run(w, act))
    requires WorkerTallied(s, s.workers[w])
    requires s.rows[s.workers[w].ev.id].retryCount <= MAX_RETRIES + 1
    requires !Busy(NextPhase(act)) && !act.Release?
    ensures IdleTallied(Move(s, w, act), s.workers[w].ev.id)
    ensures Apply(s, Run(w, act)) == Move(s, w, act)
  {
    match act
    case Complete(_) =>
    case GiveUp(_) =>
    case Requeue(_, _) =>
  }

  lemma TalliedRunActElsewhere(s: State, w: nat, act: Act, i: nat)
    requires Tallied(s) && Enabled(s, Run(w, act)) && i < |s.rows|
    requires i != s.workers[w].ev.id || act.Release?
    requires NoBusy(Apply(s, Run(w, act)), i)
    ensures i < |Apply(s, Run(w, act)).hist| && IdleTallied(Apply(s, Run(w, act)), i)
  {
    RunActMoves(s, w, act);
    RunActRows(s, w, act);
    RunActHist(s, w, act);
    MovesKeepBusy(s, Apply(s, Run(w, act)), w, i);
    assert IdleTallied(s, i);
  }

  lemma TalliedRunActIdle(s: State, w: nat, act: Act)
    requires Tallied(s) && Enabled(s, Run(w, act)) && CountedStep(s, Run(w, act))
    ensures IdlesTallied(Apply(s, Run(w, act)))
  {
    hide ParseType, Runnable;
    var t := Apply(s, Run(w, act));
    RunActRows(s, w, act);
    RunActHist(s, w, act);
    forall i | 0 <= i < |t.rows| && NoBusy(t, i)
      ensures IdleTallied(t, i)
    {
      if i < |s.rows| && (i != s.workers[w].ev.id || act.Release?) {
        TalliedRunActElsewhere(s, w, act, i);
      } else if i < |s.rows| {
        RunActMoves(s, w, act);
        assert t.workers[w].ev.id == i && t.workers[w].phase == NextPhase(act);
        assert WorkerTallied(s, s.workers[w]);
        TalliedRunActOwn(s, w, act);
      }
    }
  }

  lemma TalliedRunActQueue(s: State, w: nat, act: Act)
    requires Tallied(s) && Enabled(s, Run(w, act))
    ensures QueueTallied(Apply(s, Run(w, act)))
  {
    var t := Apply(s, Run(w, act));
    RunActRows(s, w, act);
    RunActHist(s, w, act);
    RunActMoves(s, w, act);
    assert act.Release? || forall k | 0 <= k < |s.queue| :: s.queue[k].id != s.workers[w].ev.id;
  }

  lemma TalliedRunAct(s: State, w: nat, act: Act)
    requires Tallied(s) && Enabled(s, Run(w, act)) && CountedStep(s, Run(w, act))
    ensures Tallied(Apply(s, Run(w, act)))
  {
    SafeRunAct(s, w, act);
    TalliedRunActRows(s, w, act);
    TalliedRunActWorkers(s, w, act);
    TalliedRunActIdle(s, w, act);
    TalliedRunActQueue(s, w, act);
  }

  lemma TalliedFetch(s: State, paused: set<string>)
    requires Tallied(s) && Enabled(s, Fetch(paused)) && Settled(s)
    ensures Tallied(Apply(s, Fetch(paused)))
  {
    hide ParseType, Runnable;
    SafeFetch(s, paused);
    var t := Apply(s, Fetch(paused));
    forall k | 0 <= k < |t.queue|
      ensures t.queue[k].id < |s.rows|
      ensures t.queue[k].retryCount == s.rows[t.queue[k].id].retryCount == s.hist[t.queue[k].id].starts
    {
      FetchExact(s.rows, paused, t.queue[k]);
      var i := t.queue[k].id;
      assert NoBusy(s, i);
      assert IdleTallied(s, i);
    }
    forall i | 0 <= i < |t.rows| && NoBusy(t, i) ensures IdleTallied(t, i) {
      assert NoBusy(s, i);
      assert IdleTallied(s, i);
    }
    assert forall a | 0 <= a < |s.workers| && Busy(s.workers[a].phase) :: WorkerTallied(s, s.workers[a]);
  }

  lemma TalliedDispatch(s: State)
    requires Tallied(s) && Enabled(s, Dispatch)
    ensures Tallied(Apply(s, Dispatch))
  {
    hide ParseType, Runnable;
    SafeDispatch(s);
    var t := Apply(s, Dispatch);
    var e := s.queue[0];
    assert forall i | 0 <= i < |s.hist| && i != e.id :: t.hist[i] == s.hist[i];
    assert NoBusy(s, e.id);
    forall a | 0 <= a < |t.workers| && Busy(t.workers[a].phase) ensures WorkerTallied(t, t.workers[a]) {
      if a < |s.workers| { assert WorkerTallied(s, s.workers[a]); }
    }
    forall i | 0 <= i < |t.rows| && NoBusy(t, i) ensures IdleTallied(t, i) {
      assert NoBusy(s, i) by {
        assert forall a | 0 <= a < |s.workers| :: t.workers[a] == s.workers[a];
      }
      assert IdleTallied(s, i);
    }
    assert forall k | 0 <= k < |t.queue| :: t.queue[k] == s.queue[k + 1];
    assert forall k | 0 < k < |s.queue| :: s.queue[0].id < s.queue[k].id;
  }

  // The workers and the queue stay; rows are added or marked as failed by hand.
  lemma TalliedSameWorkers(s: State, t: State)
    requires Tallied(s) && t.workers == s.workers && t.queue == s.queue
    requires |s.rows| <= |t.rows| == |t.hist|
    requires forall i | 0 <= i < |s.rows| :: t.hist[i] == s.hist[i] && t.rows[i].retryCount == s.rows[i].retryCount
    requires forall i | 0 <= i < |s.rows| :: t.rows[i].status == s.rows[i].status || t.rows[i].status == ManualFailed
    requires forall i | |s.rows| <= i < |t.rows| ::
               t.hist[i].starts == 0 == t.rows[i].retryCount && t.rows[i].status == New
    ensures RowsTallied(t) && WorkersTallied(t) && IdlesTallied(t) && QueueTallied(t)
  {
    hide ParseType, Runnable;
    forall i | 0 <= i < |t.rows| && NoBusy(t, i) ensures IdleTallied(t, i) {
      assert NoBusy(s, i);
      if i < |s.rows| { assert IdleTallied(s, i); }
    }
    forall a | 0 <= a < |t.workers| && Busy(t.workers[a].phase) ensures WorkerTallied(t, t.workers[a]) {
      assert WorkerTallied(s, s.workers[a]);
    }
  }

  lemma TalliedOther(s: State, step: Step)
    requires Tallied(s) && Enabled(s, step) && AccountableStep(s, step)
    requires step.Register? || step.Elect? || step.Admin?
    ensures Tallied(Apply(s, step))
  {
    SafeOther(s, step);
    TalliedSameWorkers(s, Apply(s, step));
    hide RowsTallied, WorkersTallied, IdlesTallied, QueueTallied, Safe;
  }

  lemma TalliedStep(s: State, step: Step)
    requires Tallied(s) && Enabled(s, step) && AccountableStep(s, step)
    ensures Tallied(Apply(s, step))
    ensures forall i | 0 <= i < |s.rows| :: i < |Apply(s, step).rows| &&
              s.rows[i].retryCount <= Apply(s, step).rows[i].retryCount
  {
    hide ParseType, Runnable;
    match step
    case Run(w, act) => TalliedRunAct(s, w, act); RunActRows(s, w, act);
    case Fetch(paused) => TalliedFetch(s, paused);
    case Dispatch => TalliedDispatch(s);
    case Crash => assert false;
    case _ => TalliedOther(s, step);
  }

  // A table nobody has attempted anything from is tallied.
  lemma FreshIsTallied(s: State)
    requires Starts(s) && |s.hist| == |s.rows|
    requires forall i | 0 <= i < |s.rows| ::
               s.rows[i].retryCount == 0 && s.hist[i].starts == 0 && s.rows[i].status != Failed
    ensures Tallied(s)
  {
  }

  predicate KeepsCount(r: Regime) { r == Accountable || r == Exact || r == Closed }

  lemma {:induction false} TalliedRun(r: Regime, s: State, steps: seq<Step>, t: State)
    requires Tallied(s) && KeepsCount(r) && Steps(r, s, steps, t)
    ensures Tallied(t) && |s.rows| <= |t.rows|
    ensures forall i | 0 <= i < |s.rows| :: s.rows[i].retryCount <= t.rows[i].retryCount
    decreases |steps|
  {
    hide ParseType, Runnable;
    if steps != [] {
      TalliedStep(s, steps[0]);
      TalliedRun(r, Apply(s, steps[0]), steps[1..], t);
    }
  }

  // Retry bound: the stored count never falls, never passes six, and is the number of
  // attempts so far of an event that waits for another; no event is attempted more than
  // seven times, and one ends failed only after all seven.
  lemma RetryBound(r: Regime, s: State, steps: seq<Step>, t: State, i: nat)
    requires Tallied(s) && KeepsCount(r) && Steps(r, s, steps, t) && i < |t.rows|
    ensures i < |s.rows| ==> s.rows[i].retryCount <= t.rows[i].retryCount
    ensures t.rows[i].retryCount <= 6
    ensures i < |t.hist| && t.hist[i].starts <= 7
    ensures NoBusy(t, i) && Upcoming(t.rows[i].status) ==> t.hist[i].starts == t.rows[i].retryCount
    ensures NoBusy(t, i) && t.rows[i].status == Failed ==> t.hist[i].starts == 7
  {
    TalliedRun(r, s, steps, t);
    if NoBusy(t, i) { assert IdleTallied(t, i); }
  }
}
