// Runs of the dispatcher, and what the environment promises in them.
module Runs {
  import opened Events
  import opened Dispatcher

  // Each regime is a set of promises about the steps of a run. The dispatcher itself
  // enforces none of them.
  //   Anything     nothing
  //   Orderly      events are marked before the next fetch, the administrator leaves events
  //                with a live worker alone, and leadership changes with no worker alive
  //   Fifo         orderly, payloads decode, and the administrator does not touch selected
  //                events or revive one that a younger event of its class has overtaken
  //   Durable      the last status a worker writes is accepted, and the process lives
  //   Accountable  orderly, retry bookkeeping is accepted, and there are no resets
  //   Exact        accountable, and completions are accepted
  //   Closed       exact and durable, no pauses, and nothing arrives from outside
  datatype Regime = Anything | Orderly | Fifo | Durable | Accountable | Exact | Closed

  // No worker has yet to mark its event, and none leaves its event up for selection.
  ghost predicate Settled(s: State) {
    forall a | 0 <= a < |s.workers| && Busy(s.workers[a].phase) ::
      s.workers[a].phase != Starting
      && (s.workers[a].ev.id < |s.rows| ==> !Upcoming(s.rows[s.workers[a].ev.id].status))
  }

  ghost predicate NoBusy(s: State, id: nat) {
    forall a | 0 <= a < |s.workers| && Busy(s.workers[a].phase) :: s.workers[a].ev.id != id
  }

  ghost predicate NoneBusy(s: State) {
    forall a | 0 <= a < |s.workers| :: !Busy(s.workers[a].phase)
  }

  ghost predicate NotOvertaken(s: State, e: Event) {
    && (forall i | 0 <= i < |s.queue| && SameClass(s.queue[i], e) :: s.queue[i].id < e.id)
    && (forall a | 0 <= a < |s.workers| && Active(s.workers[a].phase) && SameClass(s.workers[a].ev, e) ::
          s.workers[a].ev.id < e.id)
  }

  ghost predicate OrderlyStep(s: State, step: Step) {
    match step
    case Fetch(_) => Settled(s)
    case Admin(id, _) => NoBusy(s, id)
    case Elect(answer, _) => answer != s.leader ==> NoneBusy(s)
    case _ => true
  }

  ghost predicate FifoStep(s: State, step: Step) {
    match step
    case Run(_, act) => !act.DecodeFail?
    case Admin(id, status) =>
      && (forall i | 0 <= i < |s.queue| :: s.queue[i].id != id)
      && (status == New && id < |s.rows| ==> NotOvertaken(s, s.rows[id]))
    case _ => true
  }

  predicate DurableStep(step: Step) {
    match step
    case Run(_, act) => (act.GiveUp? || act.Requeue?) ==> act.ok
    case Crash => false
    case _ => true
  }

  predicate CountedStep(s: State, step: Step) {
    match step
    case Run(_, act) => (act.Count? || act.GiveUp? || act.Requeue?) ==> act.ok
    case Elect(answer, _) => answer == s.leader
    case Admin(_, status) => status == ManualFailed
    case Crash => false
    case _ => true
  }

  predicate ExactStep(step: Step) {
    step.Run? && step.act.Complete? ==> step.act.ok
  }

  predicate ClosedStep(s: State, step: Step) {
    match step
    case Fetch(paused) => paused == {} && Fetchable(s.rows) != []
    case Dispatch => true
    case Run(_, _) => true
    case _ => false
  }

  ghost predicate Permits(r: Regime, s: State, step: Step) {
    match r
    case Anything => true
    case Orderly => OrderlyStep(s, step)
    case Fifo => OrderlyStep(s, step) && FifoStep(s, step)
    case Durable => DurableStep(step)
    case Accountable => OrderlyStep(s, step) && CountedStep(s, step)
    case Exact => OrderlyStep(s, step) && CountedStep(s, step) && ExactStep(step)
    case Closed =>
      OrderlyStep(s, step) && CountedStep(s, step) && ExactStep(step) && DurableStep(step) && ClosedStep(s, step)
  }

  ghost predicate Steps(r: Regime, s: State, steps: seq<Step>, t: State)
    decreases |steps|
  {
    if steps == [] then t == s
    else
      Enabled(s, steps[0]) && Permits(r, s, steps[0])
      && Steps(r, Apply(s, steps[0]), steps[1..], t)
  }

  // What one worker's step may do to the workers and the queue: it moves that worker only,
  // and never back.
  ghost predicate Moves(s: State, t: State, w: nat) {
    && t.queue == s.queue
    && |t.workers| == |s.workers|
    && w < |s.workers|
    && (forall a | 0 <= a < |s.workers| :: t.workers[a].ev == s.workers[a].ev)
    && (forall a | 0 <= a < |s.workers| && a != w :: t.workers[a] == s.workers[a])
    && (Busy(t.workers[w].phase) ==> Busy(s.workers[w].phase))
    && (Active(t.workers[w].phase) ==> Active(s.workers[w].phase))
  }

  lemma RunActMoves(s: State, w: nat, act: Act)
    requires Enabled(s, Run(w, act))
    ensures Moves(s, Apply(s, Run(w, act)), w)
  {
  }

  // ... and to the rows: it writes its own event's row, and may append one.
  lemma RunActRows(s: State, w: nat, act: Act)
    requires Enabled(s, Run(w, act))
    ensures var t, id := Apply(s, Run(w, act)), s.workers[w].ev.id;
            && |s.rows| <= |t.rows| <= |s.rows| + 1
            && t.rows[id] == NextRow(s.rows[id], act)
            && (forall i | 0 <= i < |s.rows| && i != id :: t.rows[i] == s.rows[i])
            && (|t.rows| > |s.rows| ==> t.rows[|s.rows|].status == New)
  {
  }

  // What a process finds when it starts: some table, and nothing of its own.
  ghost predicate Starts(s: State) {
    Wf(s) && s.queue == [] && s.workers == [] && s.tokens == 0 && s.lost == 0 && !s.leader
  }

  lemma {:induction false} WfRun(r: Regime, s: State, steps: seq<Step>, t: State)
    requires Wf(s) && Steps(r, s, steps, t)
    ensures Wf(t) && Extends(s.rows, t.rows)
    decreases |steps|
  {
    if steps != [] {
      WfStep(s, steps[0]);
      ApplyExtends(s, steps[0]);
      WfRun(r, Apply(s, steps[0]), steps[1..], t);
    }
  }
}
