// Crash recovery: after a takeover whose reset succeeds, an event is processing only
// while a worker of this process attends to it.
module Recovery {
  import opened Events
  import opened Dispatcher
  import opened Runs

  predicate Attends(w: Worker, i: nat) {
    w.ev.id == i && Busy(w.phase) && w.phase != Starting
  }

  ghost predicate Attended(s: State) {
    forall i | 0 <= i < |s.rows| && s.rows[i].status == Processing ::
      exists a :: 0 <= a < |s.workers| && Attends(s.workers[a], i)
  }

  lemma AttendedRunAct(s: State, w: nat, act: Act)
    requires Attended(s) && Enabled(s, Run(w, act)) && DurableStep(Run(w, act))
    ensures Attended(Apply(s, Run(w, act)))
  {
    hide ParseType, Runnable;
    var t := Apply(s, Run(w, act));
    RunActMoves(s, w, act);
    RunActRows(s, w, act);
    var id := s.workers[w].ev.id;
    forall i | 0 <= i < |t.rows| && t.rows[i].status == Processing
      ensures exists a :: 0 <= a < |t.workers| && Attends(t.workers[a], i)
    {
      if i == id && act.Mark? && act.ok {
        assert Attends(t.workers[w], i);
      } else {
        assert s.rows[i].status == Processing;
        var a :| 0 <= a < |s.workers| && Attends(s.workers[a], i);
        assert Attends(t.workers[a], i);
      }
    }
  }

  lemma AttendedStep(s: State, step: Step)
    requires Attended(s) && Enabled(s, step) && DurableStep(step)
    ensures Attended(Apply(s, step))
  {
    var t := Apply(s, step);
    if step.Run? {
      AttendedRunAct(s, step.w, step.act);
    } else if !step.Crash? {
      forall i | 0 <= i < |t.rows| && t.rows[i].status == Processing
        ensures exists a :: 0 <= a < |t.workers| && Attends(t.workers[a], i)
      {
        assert i < |s.rows| && s.rows[i].status == Processing;
        var a :| 0 <= a < |s.workers| && Attends(s.workers[a], i);
        assert Attends(t.workers[a], i);
      }
    }
  }

  lemma {:induction false} AttendedRun(s: State, steps: seq<Step>, t: State)
    requires Attended(s) && Steps(Durable, s, steps, t)
    ensures Attended(t)
    decreases |steps|
  {
    if steps != [] {
      AttendedStep(s, steps[0]);
      AttendedRun(Apply(s, steps[0]), steps[1..], t);
    }
  }

  // A process that dies at any point and is replaced by one whose reset succeeds leaves
  // no event behind: from then on every processing event has a live worker, and once the
  // workers are done nothing is processing.
  lemma CrashRecovery(s: State, steps: seq<Step>, t: State)
    requires Wf(s)
    requires var dead := Apply(s, Crash); Steps(Durable, Apply(dead, Elect(true, true)), steps, t)
    ensures Attended(t)
    ensures NoneBusy(t) ==> forall i | 0 <= i < |t.rows| :: t.rows[i].status != Processing
  {
    var taken := Apply(Apply(s, Crash), Elect(true, true));
    forall i | 0 <= i < |taken.rows| ensures taken.rows[i].status != Processing {
      ResetRowsAt(s.rows, i);
    }
    AttendedRun(taken, steps, t);
  }

  // ---- When the reset fails ---------------------------------------------------

  // An event that is processing with nobody to attend to it.
  ghost predicate Abandoned(s: State, i: nat) {
    && i < |s.rows| && s.rows[i].status == Processing
    && NoBusy(s, i)
    && (forall k | 0 <= k < |s.queue| :: !SameClass(s.queue[k], s.rows[i]) && s.queue[k].id != i)
  }

  // Only a successful reset or the administrator can help it.
  predicate Rescues(s: State, step: Step, i: nat) {
    match step
    case Elect(answer, ok) => answer != s.leader && ok
    case Admin(id, _) => id == i
    case _ => false
  }

  ghost predicate NeverRescued(s: State, steps: seq<Step>, i: nat)
    decreases |steps|
  {
    steps == [] || (Enabled(s, steps[0]) && !Rescues(s, steps[0], i)
                    && NeverRescued(Apply(s, steps[0]), steps[1..], i))
  }

  lemma AbandonedFetch(s: State, paused: set<string>, i: nat)
    requires Wf(s) && Abandoned(s, i) && Enabled(s, Fetch(paused))
    ensures Abandoned(Apply(s, Fetch(paused)), i)
  {
    hide ParseType, Runnable;
    var t := Apply(s, Fetch(paused));
    forall k | 0 <= k < |t.queue|
      ensures !SameClass(t.queue[k], t.rows[i]) && t.queue[k].id != i
    {
      FetchExact(s.rows, paused, t.queue[k]);
      assert s.rows[i] in s.rows;
    }
  }

  lemma AbandonedRunAct(s: State, w: nat, act: Act, i: nat)
    requires Wf(s) && Abandoned(s, i) && Enabled(s, Run(w, act))
    ensures Abandoned(Apply(s, Run(w, act)), i)
  {
    hide ParseType, Runnable;
    RunActMoves(s, w, act);
    RunActRows(s, w, act);
    assert act.Release? || s.workers[w].ev.id != i;
  }

  lemma AbandonedStep(s: State, step: Step, i: nat)
    requires Wf(s) && Abandoned(s, i) && Enabled(s, step) && !Rescues(s, step, i)
    ensures Wf(Apply(s, step)) && Abandoned(Apply(s, step), i)
  {
    hide ParseType, Runnable;
    WfStep(s, step);
    var t := Apply(s, step);
    match step
    case Fetch(paused) => AbandonedFetch(s, paused, i);
    case Dispatch =>
      assert forall k | 0 <= k < |t.queue| :: t.queue[k] == s.queue[k + 1];
    case Run(w, act) => AbandonedRunAct(s, w, act, i);
    case _ =>
  }

  lemma {:induction false} AbandonedRun(s: State, steps: seq<Step>, t: State, i: nat)
    requires Wf(s) && Abandoned(s, i) && Steps(Anything, s, steps, t) && NeverRescued(s, steps, i)
    ensures Wf(t) && Abandoned(t, i) && Extends(s.rows, t.rows)
    decreases |steps|
  {
    if steps != [] {
      AbandonedStep(s, steps[0], i);
      ApplyExtends(s, steps[0]);
      AbandonedRun(Apply(s, steps[0]), steps[1..], t, i);
    }
  }

  // A failed reset is never tried again: the process becomes leader all the same, and
  // whatever was processing stays so, keeping its whole class from ever being selected.
  lemma FailedResetStrands(s: State, steps: seq<Step>, t: State, i: nat)
    requires Wf(s) && i < |s.rows| && s.rows[i].status == Processing
    requires var taken := Apply(Apply(s, Crash), Elect(true, false));
             Steps(Anything, taken, steps, t) && NeverRescued(taken, steps, i)
    ensures i < |t.rows| && t.rows[i].status == Processing
    ensures forall k | 0 <= k < |t.queue| :: !SameClass(t.queue[k], s.rows[i])
  {
    var taken := Apply(Apply(s, Crash), Elect(true, false));
    AbandonedRun(taken, steps, t, i);
    assert SameKind(t.rows[i], s.rows[i]);
  }
}
