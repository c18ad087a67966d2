// At most one worker works for an owner and resource, in every orderly run; and in
// first-in-first-out order where nothing revives an overtaken event.
module Exclusion {
  import opened Events
  import opened Dispatcher
  import opened Kinds
  import opened Runs

  ghost predicate OneWorkerPerEvent(s: State) {
    forall a, b | 0 <= a < b < |s.workers| && Busy(s.workers[a].phase) && Busy(s.workers[b].phase) ::
      s.workers[a].ev.id != s.workers[b].ev.id
  }

  ghost predicate OneActivePerClass(s: State) {
    forall a, b | 0 <= a < b < |s.workers| && Active(s.workers[a].phase) && Active(s.workers[b].phase) ::
      !SameClass(s.workers[a].ev, s.workers[b].ev)
  }

  ghost predicate QueueApart(s: State) {
    && (forall i, a | 0 <= i < |s.queue| && 0 <= a < |s.workers| && Active(s.workers[a].phase) ::
          !SameClass(s.queue[i], s.workers[a].ev))
    && (forall i, a | 0 <= i < |s.queue| && 0 <= a < |s.workers| && Busy(s.workers[a].phase) ::
          s.queue[i].id != s.workers[a].ev.id)
  }

  ghost predicate QueueDistinct(s: State) {
    && Ascending(s.queue)
    && forall i, j | 0 <= i < j < |s.queue| :: !SameClass(s.queue[i], s.queue[j])
  }

  ghost predicate WorkIsMarked(s: State) {
    forall a | 0 <= a < |s.workers| && (s.workers[a].phase == Working || s.workers[a].phase == Completing) ::
      s.workers[a].ev.id < |s.rows| && s.rows[s.workers[a].ev.id].status == Processing
  }

  ghost predicate Safe(s: State) {
    Wf(s) && OneWorkerPerEvent(s) && OneActivePerClass(s) && QueueApart(s) && QueueDistinct(s) && WorkIsMarked(s)
  }

  lemma MovesKeepApart(s: State, t: State, w: nat)
    requires Moves(s, t, w)
    ensures OneWorkerPerEvent(s) ==> OneWorkerPerEvent(t)
    ensures OneActivePerClass(s) ==> OneActivePerClass(t)
  {
  }

  lemma MovesKeepQueueApart(s: State, t: State, w: nat)
    requires Moves(s, t, w)
    ensures QueueApart(s) ==> QueueApart(t)
    ensures QueueDistinct(s) ==> QueueDistinct(t)
  {
  }

  lemma RunActKeepsMarks(s: State, w: nat, act: Act)
    requires Enabled(s, Run(w, act)) && WorkIsMarked(s) && OneWorkerPerEvent(s)
    ensures WorkIsMarked(Apply(s, Run(w, act)))
  {
    var t := Apply(s, Run(w, act));
    RunActMoves(s, w, act);
    RunActRows(s, w, act);
    forall a | 0 <= a < |t.workers| && (t.workers[a].phase == Working || t.workers[a].phase == Completing)
      ensures t.workers[a].ev.id < |t.rows| && t.rows[t.workers[a].ev.id].status == Processing
    {
      if a < w { assert act.Release? || s.workers[a].ev.id != s.workers[w].ev.id; }
      if w < a { assert act.Release? || s.workers[w].ev.id != s.workers[a].ev.id; }
    }
  }

  lemma SafeRunAct(s: State, w: nat, act: Act)
    requires Safe(s) && Enabled(s, Run(w, act))
    ensures Safe(Apply(s, Run(w, act)))
  {
    var t := Apply(s, Run(w, act));
    WfStep(s, Run(w, act));
    RunActMoves(s, w, act);
    MovesKeepApart(s, t, w);
    MovesKeepQueueApart(s, t, w);
    RunActKeepsMarks(s, w, act);
  }

  lemma SafeFetch(s: State, paused: set<string>)
    requires Safe(s) && Enabled(s, Fetch(paused)) && Settled(s)
    ensures Safe(Apply(s, Fetch(paused)))
  {
    hide ParseType, Runnable, FetchPanics, Fetchable, OmitPaused;
    WfStep(s, Fetch(paused));
    var t := Apply(s, Fetch(paused));
    FetchOnePerClass(s.rows, paused);
    forall i, a | 0 <= i < |t.queue| && 0 <= a < |s.workers| && Busy(s.workers[a].phase)
      ensures t.queue[i].id != s.workers[a].ev.id
      ensures Active(s.workers[a].phase) ==> !SameClass(t.queue[i], s.workers[a].ev)
    {
      FetchExact(s.rows, paused, t.queue[i]);
      var row := s.rows[s.workers[a].ev.id];
      assert SameKind(row, s.workers[a].ev);
    }
  }

  // Dispatching the head of the queue adds at most a worker that is only Starting.
  ghost predicate Dispatches(s: State, t: State) {
    && s.queue != [] && t.queue == s.queue[1..] && t.rows == s.rows
    && |s.workers| <= |t.workers| <= |s.workers| + 1
    && (forall a | 0 <= a < |s.workers| :: t.workers[a] == s.workers[a])
    && (|t.workers| > |s.workers| ==> t.workers[|s.workers|] == Worker(s.queue[0], Starting))
  }

  lemma DispatchKeepsApart(s: State, t: State)
    requires Dispatches(s, t) && QueueApart(s)
    ensures OneWorkerPerEvent(s) ==> OneWorkerPerEvent(t)
    ensures OneActivePerClass(s) ==> OneActivePerClass(t)
    ensures WorkIsMarked(s) ==> WorkIsMarked(t)
  {
  }

  lemma DispatchKeepsQueue(s: State, t: State)
    requires Dispatches(s, t) && QueueApart(s) && QueueDistinct(s)
    ensures QueueApart(t) && QueueDistinct(t)
  {
    assert forall i | 0 <= i < |t.queue| :: t.queue[i] == s.queue[i + 1];
    assert forall i | 0 < i < |s.queue| :: s.queue[0].id < s.queue[i].id && !SameClass(s.queue[0], s.queue[i]);
  }

  lemma SafeDispatch(s: State)
    requires Safe(s) && Enabled(s, Dispatch)
    ensures Safe(Apply(s, Dispatch)) && Dispatches(s, Apply(s, Dispatch))
  {
    WfStep(s, Dispatch);
    DispatchKeepsApart(s, Apply(s, Dispatch));
    DispatchKeepsQueue(s, Apply(s, Dispatch));
  }

  lemma SafeOther(s: State, step: Step)
    requires Safe(s) && Enabled(s, step) && OrderlyStep(s, step)
    requires step.Register? || step.Elect? || step.Admin? || step.Crash?
    ensures Safe(Apply(s, step))
  {
    hide ParseType, Runnable;
    WfStep(s, step);
  }

  lemma SafeStep(s: State, step: Step)
    requires Safe(s) && Enabled(s, step) && OrderlyStep(s, step)
    ensures Safe(Apply(s, step))
  {
    match step
    case Run(w, act) => SafeRunAct(s, w, act);
    case Fetch(paused) => SafeFetch(s, paused);
    case Dispatch => SafeDispatch(s);
    case _ => SafeOther(s, step);
  }

  predicate KeepsOrder(r: Regime) { r != Anything && r != Durable }

  lemma {:induction false} SafeRun(r: Regime, s: State, steps: seq<Step>, t: State)
    requires Safe(s) && KeepsOrder(r) && Steps(r, s, steps, t)
    ensures Safe(t)
    decreases |steps|
  {
    if steps != [] {
      SafeStep(s, steps[0]);
      SafeRun(r, Apply(s, steps[0]), steps[1..], t);
    }
  }

  // Mutual exclusion over whole runs: whatever the table held and whatever the
  // interleaving, no two workers ever act for the same owner and resource.
  lemma MutualExclusion(r: Regime, s: State, steps: seq<Step>, t: State, a: nat, b: nat)
    requires Starts(s) && KeepsOrder(r) && Steps(r, s, steps, t)
    requires a < |t.workers| && b < |t.workers| && a != b
    requires t.workers[a].phase == Working && t.workers[b].phase == Working
    ensures !SameClass(t.workers[a].ev, t.workers[b].ev)
  {
    SafeRun(r, s, steps, t);
    if b < a { assert !SameClass(t.workers[b].ev, t.workers[a].ev); }
  }

  // In particular no two of rollout, rollback and uninstall of one owner are ever at work
  // together.
  lemma HelmExclusion(r: Regime, s: State, steps: seq<Step>, t: State, a: nat, b: nat)
    requires Starts(s) && KeepsOrder(r) && Steps(r, s, steps, t)
    requires a < |t.workers| && b < |t.workers| && a != b
    requires t.workers[a].phase == Working && t.workers[b].phase == Working
    requires t.workers[a].ev.typ in {"rolloutAirflow:helm", "rollbackAirflow:helm", "uninstallAirflow:helm"}
    requires t.workers[b].ev.typ in {"rolloutAirflow:helm", "rollbackAirflow:helm", "uninstallAirflow:helm"}
    ensures t.workers[a].ev.owner != t.workers[b].ev.owner
  {
    hide Resource, Steps, Starts, ParseType;
    MutualExclusion(r, s, steps, t, a, b);
    HelmResources();
  }

  // ---- First in, first out ----------------------------------------------------

  ghost predicate OlderDone(s: State, e: Event) {
    forall i | 0 <= i < |s.rows| && i < e.id && SameClass(s.rows[i], e) :: Terminal(s.rows[i].status)
  }

  ghost predicate OldestFirst(s: State) {
    && (forall i | 0 <= i < |s.queue| :: OlderDone(s, s.queue[i]))
    && (forall a | 0 <= a < |s.workers| && Active(s.workers[a].phase) :: OlderDone(s, s.workers[a].ev))
  }

  // What has been selected or is being handled is not finished.
  ghost predicate Unfinished(s: State) {
    && (forall i | 0 <= i < |s.queue| :: s.queue[i].id < |s.rows| && Upcoming(s.rows[s.queue[i].id].status))
    && (forall a | 0 <= a < |s.workers| && Busy(s.workers[a].phase) ::
          s.workers[a].ev.id < |s.rows| && !Terminal(s.rows[s.workers[a].ev.id].status))
  }

  ghost predicate InOrder(s: State) {
    Safe(s) && OldestFirst(s) && Unfinished(s)
  }

  lemma InOrderFetch(s: State, paused: set<string>)
    requires InOrder(s) && Enabled(s, Fetch(paused)) && Settled(s)
    ensures InOrder(Apply(s, Fetch(paused)))
  {
    SafeFetch(s, paused);
    var t := Apply(s, Fetch(paused));
    forall i | 0 <= i < |t.queue|
      ensures OlderDone(t, t.queue[i]) && Upcoming(s.rows[t.queue[i].id].status)
    {
      FetchExact(s.rows, paused, t.queue[i]);
      forall j | 0 <= j < |s.rows| && j < t.queue[i].id && SameClass(s.rows[j], t.queue[i])
        ensures Terminal(s.rows[j].status)
      {
        assert s.rows[j] in s.rows;
      }
    }
  }

  lemma MovesKeepOldestFirst(s: State, t: State, w: nat)
    requires Moves(s, t, w) && OldestFirst(s)
    requires forall e | OlderDone(s, e) && e.id < |s.rows| :: OlderDone(t, e)
    requires forall i | 0 <= i < |s.queue| :: s.queue[i].id < |s.rows|
    requires forall a | 0 <= a < |s.workers| :: s.workers[a].ev.id < |s.rows|
    ensures OldestFirst(t)
  {
  }

  // A worker that writes a row leaves finished older rows finished: its own row is
  // unfinished, so it is not one of them.
  lemma RunActKeepsOlderDone(s: State, w: nat, act: Act, e: Event)
    requires Wf(s) && Unfinished(s) && Enabled(s, Run(w, act))
    requires OlderDone(s, e) && e.id < |s.rows|
    ensures OlderDone(Apply(s, Run(w, act)), e)
  {
    var t := Apply(s, Run(w, act));
    var id := s.workers[w].ev.id;
    RunActRows(s, w, act);
    ApplyExtends(s, Run(w, act));
    assert act.Release? || !Terminal(s.rows[id].status);
    forall i | 0 <= i < |t.rows| && i < e.id && SameClass(t.rows[i], e)
      ensures Terminal(t.rows[i].status)
    {
      assert SameKind(t.rows[i], s.rows[i]);
    }
  }

  lemma RunActKeepsUnfinished(s: State, w: nat, act: Act)
    requires Wf(s) && Unfinished(s) && OneWorkerPerEvent(s) && QueueApart(s)
    requires Enabled(s, Run(w, act)) && !act.DecodeFail?
    ensures Unfinished(Apply(s, Run(w, act)))
  {
    hide ParseType, Runnable;
    var t := Apply(s, Run(w, act));
    RunActMoves(s, w, act);
    RunActRows(s, w, act);
    forall a | 0 <= a < |t.workers| && Busy(t.workers[a].phase)
      ensures !Terminal(t.rows[t.workers[a].ev.id].status)
    {
      if a < w { assert act.Release? || s.workers[a].ev.id != s.workers[w].ev.id; }
      if w < a { assert act.Release? || s.workers[w].ev.id != s.workers[a].ev.id; }
    }
  }

  lemma InOrderRunAct(s: State, w: nat, act: Act)
    requires InOrder(s) && Enabled(s, Run(w, act)) && !act.DecodeFail?
    ensures InOrder(Apply(s, Run(w, act)))
  {
    SafeRunAct(s, w, act);
    RunActMoves(s, w, act);
    forall e | OlderDone(s, e) && e.id < |s.rows| ensures OlderDone(Apply(s, Run(w, act)), e) {
      RunActKeepsOlderDone(s, w, act, e);
    }
    MovesKeepOldestFirst(s, Apply(s, Run(w, act)), w);
    RunActKeepsUnfinished(s, w, act);
  }

  lemma InOrderDispatch(s: State)
    requires InOrder(s) && Enabled(s, Dispatch)
    ensures InOrder(Apply(s, Dispatch))
  {
    hide ParseType, Runnable;
    SafeDispatch(s);
    var t := Apply(s, Dispatch);
    assert t.rows == s.rows;
    assert forall i | 0 <= i < |t.queue| :: t.queue[i] == s.queue[i + 1];
    assert forall e | OlderDone(s, e) :: OlderDone(t, e);
  }

  lemma AdminKeepsOlderDone(s: State, id: nat, status: Status, e: Event)
    requires Wf(s) && Enabled(s, Admin(id, status)) && OlderDone(s, e)
    requires status == New && SameClass(e, s.rows[id]) ==> e.id < id
    ensures OlderDone(Apply(s, Admin(id, status)), e)
  {
    hide ParseType, Runnable;
    var t := Apply(s, Admin(id, status));
    forall i | 0 <= i < |t.rows| && i < e.id && SameClass(t.rows[i], e) ensures Terminal(t.rows[i].status) {
      assert SameKind(t.rows[i], s.rows[i]);
    }
  }

  lemma InOrderAdmin(s: State, id: nat, status: Status)
    requires InOrder(s) && Enabled(s, Admin(id, status)) && NoBusy(s, id) && FifoStep(s, Admin(id, status))
    ensures InOrder(Apply(s, Admin(id, status)))
  {
    hide ParseType, Runnable;
    SafeOther(s, Admin(id, status));
    var t := Apply(s, Admin(id, status));
    forall k | 0 <= k < |t.queue| ensures OlderDone(t, t.queue[k]) {
      AdminKeepsOlderDone(s, id, status, s.queue[k]);
    }
    forall a | 0 <= a < |t.workers| && Active(t.workers[a].phase) ensures OlderDone(t, t.workers[a].ev) {
      AdminKeepsOlderDone(s, id, status, s.workers[a].ev);
    }
  }

  lemma InOrderRegister(s: State, owner: string, typ: EventType)
    requires InOrder(s)
    ensures InOrder(Apply(s, Register(owner, typ)))
  {
    hide ParseType, Runnable, Safe, NewRow, OlderDone, SameClass;
    SafeOther(s, Register(owner, typ));
    var t := Apply(s, Register(owner, typ));
    assert forall i | 0 <= i < |s.rows| :: t.rows[i] == s.rows[i];
    forall e | OlderDone(s, e) && e.id < |s.rows| ensures OlderDone(t, e) { OlderDoneLater(s, t, e); }
  }

  lemma OlderDoneLater(s: State, t: State, e: Event)
    requires OlderDone(s, e) && e.id < |s.rows| <= |t.rows|
    requires forall i | 0 <= i < |s.rows| :: t.rows[i] == s.rows[i]
    ensures OlderDone(t, e)
  {
    hide ParseType;
  }

  lemma InOrderElect(s: State, answer: bool, ok: bool)
    requires InOrder(s) && Enabled(s, Elect(answer, ok)) && OrderlyStep(s, Elect(answer, ok))
    ensures InOrder(Apply(s, Elect(answer, ok)))
  {
    SafeOther(s, Elect(answer, ok));
    hide ParseType, Runnable, Safe;
  }

  lemma InOrderOther(s: State, step: Step)
    requires InOrder(s) && Enabled(s, step) && OrderlyStep(s, step)
    requires step.Register? || step.Elect? || step.Crash?
    ensures InOrder(Apply(s, step))
  {
    match step
    case Register(owner, typ) => InOrderRegister(s, owner, typ);
    case Elect(answer, ok) => InOrderElect(s, answer, ok);
    case Crash =>
      SafeOther(s, step);
      hide Safe;
  }

  lemma InOrderStep(s: State, step: Step)
    requires InOrder(s) && Enabled(s, step) && Permits(Fifo, s, step)
    ensures InOrder(Apply(s, step))
  {
    match step
    case Run(w, act) => InOrderRunAct(s, w, act);
    case Fetch(paused) => InOrderFetch(s, paused);
    case Dispatch => InOrderDispatch(s);
    case Admin(id, status) => InOrderAdmin(s, id, status);
    case _ => InOrderOther(s, step);
  }

  lemma {:induction false} InOrderRun(s: State, steps: seq<Step>, t: State)
    requires InOrder(s) && Steps(Fifo, s, steps, t)
    ensures InOrder(t)
    decreases |steps|
  {
    if steps != [] {
      InOrderStep(s, steps[0]);
      InOrderRun(Apply(s, steps[0]), steps[1..], t);
    }
  }

  // First in, first out over whole runs, through retries, deadlines and pauses: while a
  // worker acts on an event, every older event of its owner and resource has ended.
  lemma FirstInFirstOut(s: State, steps: seq<Step>, t: State, a: nat, i: nat)
    requires Starts(s) && Steps(Fifo, s, steps, t)
    requires a < |t.workers| && t.workers[a].phase == Working
    requires i < |t.rows| && i < t.workers[a].ev.id && SameClass(t.rows[i], t.workers[a].ev)
    ensures t.rows[i].status in {Completed, Failed, ManualFailed}
  {
    InOrderRun(s, steps, t);
  }
}
