// The five slots: every token in the channel belongs to a live worker or to an entry the
// dispatcher could not read.
module Slots {
  import opened Decimal
  import opened Events
  import opened Dispatcher
  import opened Runs

  function Live(workers: seq<Worker>): nat {
    if workers == [] then 0
    else Live(workers[..|workers| - 1]) + if workers[|workers| - 1].phase == Released then 0 else 1
  }

  lemma LiveAppend(workers: seq<Worker>, w: Worker)
    ensures Live(workers + [w]) == Live(workers) + if w.phase == Released then 0 else 1
  {
    assert (workers + [w])[..|workers|] == workers;
  }

  lemma {:induction false} LiveUpdate(workers: seq<Worker>, a: nat, w: Worker)
    requires a < |workers|
    ensures Live(workers[a := w]) ==
            Live(workers) + (if w.phase == Released then 0 else 1) - (if workers[a].phase == Released then 0 else 1)
    decreases |workers|
  {
    var n := |workers| - 1;
    if a == n {
      assert workers[a := w][..n] == workers[..n];
    } else {
      LiveUpdate(workers[..n], a, w);
      assert workers[a := w][..n] == workers[..n][a := w];
    }
  }

  lemma NoLiveMeansReleased(workers: seq<Worker>)
    ensures Live(workers) == 0 <==> forall a | 0 <= a < |workers| :: workers[a].phase == Released
  {
    if workers != [] {
      NoLiveMeansReleased(workers[..|workers| - 1]);
      assert workers == workers[..|workers| - 1] + [workers[|workers| - 1]];
    }
  }

  ghost predicate SlotsBalance(s: State) {
    s.tokens == Live(s.workers) + s.lost && s.tokens <= SLOTS
  }

  // Rows that the Register functions make: readable type, readable deadline.
  ghost predicate AllRunnable(s: State) {
    (forall i | 0 <= i < |s.rows| :: Runnable(s.rows[i])) && s.lost == 0
  }

  lemma SlotsStep(s: State, step: Step)
    requires SlotsBalance(s) && Enabled(s, step)
    ensures SlotsBalance(Apply(s, step))
  {
    hide ParseType, Runnable;
    match step
    case Run(w, act) =>
      LiveUpdate(s.workers, w, s.workers[w].(phase := NextPhase(act)));
    case Dispatch =>
      LiveAppend(s.workers, Worker(s.queue[0], Starting));
    case _ =>
  }

  lemma NewRowRunnable(id: nat, owner: string, t: EventType)
    ensures Runnable(NewRow(id, owner, t))
  {
    TypeNamesParse(t);
    DurationRoundTrip(DeadlineMinutes(t));
  }

  lemma RunnableRun(s: State, w: nat, act: Act)
    requires Wf(s) && AllRunnable(s) && Enabled(s, Run(w, act))
    ensures AllRunnable(Apply(s, Run(w, act)))
  {
    RunActRows(s, w, act);
    ApplyExtends(s, Run(w, act));
    if act.Work? && act.spawn {
      NewRowRunnable(|s.rows|, s.workers[w].ev.owner, SpawnOf(ParseType(s.workers[w].ev.typ).value).value);
    }
    hide ParseType, ParseDuration;
    var t := Apply(s, Run(w, act));
    assert t.lost == s.lost;
    forall i | 0 <= i < |t.rows| ensures Runnable(t.rows[i]) {
      if i < |s.rows| { SameKindRunnable(s.rows[i], t.rows[i]); }
    }
  }

  lemma RunnableStep(s: State, step: Step)
    requires Wf(s) && AllRunnable(s) && Enabled(s, step)
    ensures AllRunnable(Apply(s, step))
  {
    hide ParseType, ParseDuration;
    match step
    case Register(owner, t) => NewRowRunnable(|s.rows|, owner, t);
    case Dispatch => assert Refers(s.rows, s.queue[0]);
    case Run(w, act) => RunnableRun(s, w, act);
    case _ =>
  }

  // Slot conservation in every run, with nothing promised by anyone: the tokens in the
  // channel are the live workers plus the unreadable entries, and never more than five.
  lemma {:induction false} SlotConservation(s: State, steps: seq<Step>, t: State)
    requires SlotsBalance(s) && Steps(Anything, s, steps, t)
    ensures SlotsBalance(t) && Live(t.workers) + t.lost <= 5
    decreases |steps|
  {
    if steps != [] {
      SlotsStep(s, steps[0]);
      SlotConservation(Apply(s, steps[0]), steps[1..], t);
    }
  }

  // No slot is ever lost to events that the Register functions made.
  lemma {:induction false} NoSlotLost(s: State, steps: seq<Step>, t: State)
    requires Wf(s) && AllRunnable(s) && Steps(Anything, s, steps, t)
    ensures AllRunnable(t)
    decreases |steps|
  {
    if steps != [] {
      RunnableStep(s, steps[0]);
      WfStep(s, steps[0]);
      NoSlotLost(Apply(s, steps[0]), steps[1..], t);
    }
  }

  // The leak is real: with all five slots lost no event of any kind is dispatched again
  // before the process restarts. One unreadable row and five ticks are enough for that.
  lemma LostSlotsBlock(s: State, steps: seq<Step>, t: State)
    requires SlotsBalance(s) && s.lost == SLOTS
    requires Steps(Anything, s, steps, t) && Crash !in steps
    ensures t.lost == SLOTS && !Enabled(t, Dispatch)
    ensures Live(t.workers) == 0
    decreases |steps|
  {
    if steps != [] {
      SlotsStep(s, steps[0]);
      if steps[0].Run? && !steps[0].act.Release? {
        NoLiveMeansReleased(s.workers);
      }
      LostSlotsBlock(Apply(s, steps[0]), steps[1..], t);
    }
  }
}
