// How slots are lost: an event whose type or deadline the dispatcher cannot read is never
// marked, so it is selected again at every tick and costs a slot each time.
module LostSlots {
  import opened Events
  import opened Dispatcher
  import opened Runs
  import opened Slots
  import opened BadRuns

  // ---- A row that cannot be read -----------------------------------------------------

  // The row i is up for selection and cannot be read, and nothing of its class is selected,
  // processing or at work, or comes before it.
  ghost predicate Blocking(s: State, i: nat) {
    && Wf(s) && i < |s.rows| && Upcoming(s.rows[i].status) && !Runnable(s.rows[i])
    && (forall j | 0 <= j < |s.rows| && SameClass(s.rows[j], s.rows[i]) ::
          s.rows[j].status != Processing && (j < i ==> !Upcoming(s.rows[j].status)))
    && (forall k | 0 <= k < |s.queue| && SameClass(s.queue[k], s.rows[i]) :: s.queue[k].id == i)
    && (forall a | 0 <= a < |s.workers| && Busy(s.workers[a].phase) :: !SameClass(s.workers[a].ev, s.rows[i]))
  }

  // How often the row is waiting to be dispatched.
  function Waiting(queue: seq<Event>, i: nat): nat {
    if queue == [] then 0 else (if queue[0].id == i then 1 else 0) + Waiting(queue[1..], i)
  }

  lemma {:induction false} WaitingIn(queue: seq<Event>, i: nat, e: Event)
    requires e in queue && e.id == i
    ensures Waiting(queue, i) > 0
  {
    if queue[0] != e { WaitingIn(queue[1..], i, e); }
  }

  lemma SameKindUnrunnable(a: Event, b: Event)
    requires SameKind(a, b) && !Runnable(b)
    ensures !Runnable(a)
  {
    hide ParseType;
  }

  lemma NeverStarts(s: State, i: nat, e: Event)
    requires Blocking(s, i) && e in s.queue && e.id == i
    ensures !Runnable(e)
  {
    hide ParseType, Runnable;
    SameKindUnrunnable(e, s.rows[i]);
  }

  lemma BlockingFetch(s: State, i: nat, paused: set<string>)
    requires Blocking(s, i) && Enabled(s, Fetch(paused))
    ensures Blocking(Apply(s, Fetch(paused)), i)
    ensures !(Pausable(s.rows[i].typ) && s.rows[i].owner in paused) ==>
              Waiting(Apply(s, Fetch(paused)).queue, i) > 0
  {
    WfStep(s, Fetch(paused));
    hide ParseType, Runnable, Fetchable, OmitPaused;
    var q := Apply(s, Fetch(paused)).queue;
    forall k | 0 <= k < |q| && SameClass(q[k], s.rows[i]) ensures q[k].id == i {
      FetchExact(s.rows, paused, q[k]);
      assert s.rows[i] in s.rows && q[k] == s.rows[q[k].id];
    }
    FetchExact(s.rows, paused, s.rows[i]);
    if s.rows[i] in q { WaitingIn(q, i, s.rows[i]); }
  }

  lemma BlockingDispatch(s: State, i: nat)
    requires Blocking(s, i) && Enabled(s, Dispatch)
    ensures Blocking(Apply(s, Dispatch), i)
  {
    WfStep(s, Dispatch);
    var e := s.queue[0];
    assert e in s.queue;
    if e.id == i { NeverStarts(s, i, e); }
    hide ParseType, Runnable, Wf;
    var t := Apply(s, Dispatch);
    assert forall k | 0 <= k < |t.queue| :: t.queue[k] == s.queue[k + 1];
  }

  lemma DispatchCosts(s: State, i: nat)
    requires Blocking(s, i) && Enabled(s, Dispatch)
    ensures var t := Apply(s, Dispatch); t.lost + Waiting(t.queue, i) >= s.lost + Waiting(s.queue, i)
  {
    var e := s.queue[0];
    assert e in s.queue;
    if e.id == i { NeverStarts(s, i, e); }
    hide ParseType, Runnable, Blocking;
  }

  lemma BlockingRun(s: State, i: nat, w: nat, act: Act)
    requires Blocking(s, i) && Enabled(s, Run(w, act))
    ensures Blocking(Apply(s, Run(w, act)), i)
  {
    var t := Apply(s, Run(w, act));
    WfStep(s, Run(w, act));
    ApplyExtends(s, Run(w, act));
    RunActMoves(s, w, act);
    RunActRows(s, w, act);
    SameKindUnrunnable(t.rows[i], s.rows[i]);
    assert !act.Release? ==> Busy(s.workers[w].phase);
    var id := s.workers[w].ev.id;
    assert SameKind(s.rows[id], s.workers[w].ev);
    assert act.Release? ==> t.rows[id] == s.rows[id];
    hide ParseType, Runnable, Wf, Apply, Enabled;
  }

  // Only the administrator can help: through every other step, a restart included, the row
  // goes on blocking its class.
  lemma BlockingStep(s: State, i: nat, step: Step)
    requires Blocking(s, i) && Enabled(s, step) && !step.Admin?
    ensures Blocking(Apply(s, step), i)
    ensures !step.Crash? ==>
              var t := Apply(s, step);
              t.lost + Waiting(t.queue, i) >= s.lost + Waiting(s.queue, i)
              + if step.Fetch? && !(Pausable(s.rows[i].typ) && s.rows[i].owner in step.paused) then 1 else 0
    ensures s.rows[i].typ == Apply(s, step).rows[i].typ && s.rows[i].owner == Apply(s, step).rows[i].owner
  {
    ApplyExtends(s, step);
    hide ParseType, Runnable;
    match step
    case Fetch(paused) => BlockingFetch(s, i, paused);
    case Dispatch =>
      BlockingDispatch(s, i);
      DispatchCosts(s, i);
    case Run(w, act) =>
      BlockingRun(s, i, w, act);
      RunActMoves(s, w, act);
    case Elect(answer, ok) => BlockingElect(s, i, answer, ok);
    case _ => WfStep(s, step);
  }

  lemma BlockingElect(s: State, i: nat, answer: bool, ok: bool)
    requires Blocking(s, i) && Enabled(s, Elect(answer, ok))
    ensures Blocking(Apply(s, Elect(answer, ok)), i)
  {
    WfStep(s, Elect(answer, ok));
    hide ParseType, Runnable, Wf;
    forall j | 0 <= j < |s.rows|
      ensures SameKind(ResetRows(s.rows)[j], s.rows[j])
              && ResetRows(s.rows)[j].status == if s.rows[j].status == Processing then Pending else s.rows[j].status
    {
      ResetRowsAt(s.rows, j);
    }
    assert ResetRows(s.rows)[i] == s.rows[i];
  }

  // ---- Ticks -----------------------------------------------------------------------------

  // No restart, no help from the administrator, and no pause that holds the row back.
  predicate Undisturbed(steps: seq<Step>, typ: string, owner: string) {
    forall k | 0 <= k < |steps| ::
      !steps[k].Admin? && !steps[k].Crash?
      && (steps[k].Fetch? ==> !(Pausable(typ) && owner in steps[k].paused))
  }

  function Fetches(steps: seq<Step>): nat {
    if steps == [] then 0 else (if steps[0].Fetch? then 1 else 0) + Fetches(steps[1..])
  }

  // Every fetch of every such run leads to another lost slot.
  lemma {:induction false} EveryFetchCosts(s: State, steps: seq<Step>, t: State, i: nat)
    requires Blocking(s, i) && Steps(Anything, s, steps, t)
    requires Undisturbed(steps, s.rows[i].typ, s.rows[i].owner)
    ensures Blocking(t, i)
    ensures t.lost + Waiting(t.queue, i) >= s.lost + Waiting(s.queue, i) + Fetches(steps)
    decreases |steps|
  {
    hide ParseType, Runnable, Blocking, Apply, Pausable;
    if steps != [] {
      assert !steps[0].Admin? && !steps[0].Crash?;
      BlockingMeans(s, i);
      BlockingStep(s, i, steps[0]);
      EveryFetchCosts(Apply(s, steps[0]), steps[1..], t, i);
    }
  }

  lemma BlockingMeans(s: State, i: nat)
    requires Blocking(s, i)
    ensures i < |s.rows|
  {
  }

  // So after five ticks of any run every slot is lost, and no event of any kind is
  // dispatched again before a restart.
  lemma FiveTicksBlock(s: State, steps: seq<Step>, t: State, i: nat, more: seq<Step>, u: State)
    requires Blocking(s, i) && SlotsBalance(s) && s.queue == []
    requires Steps(Anything, s, steps, t) && Undisturbed(steps, s.rows[i].typ, s.rows[i].owner)
    requires Fetches(steps) >= 5 && t.queue == []
    requires Steps(Anything, t, more, u) && Crash !in more
    ensures t.lost == 5 && u.lost == 5 && !Enabled(u, Dispatch) && Live(u.workers) == 0
  {
    EveryFetchCosts(s, steps, t, i);
    SlotConservation(s, steps, t);
    hide Steps;
    LostSlotsBlock(t, more, u);
  }

  // ---- Such runs ---------------------------------------------------------------------------

  // The only row of a table, and one that cannot be read.
  predicate OneUnreadable(e: Event) {
    e.id == 0 && Upcoming(e.status) && !Runnable(e)
  }

  lemma DispatchUnreadable(s: State, e: Event)
    requires s.queue == [e] && !Runnable(e) && s.tokens < SLOTS
    ensures Apply(s, Dispatch) == s.(queue := [], tokens := s.tokens + 1, lost := s.lost + 1)
  {
    hide ParseType, Runnable;
  }

  lemma TwoSteps(s: State, a: Step, t: State, b: Step, u: State)
    requires Enabled(s, a) && Apply(s, a) == t && Enabled(t, b) && Apply(t, b) == u
    ensures Steps(Anything, s, [a] + [b], u)
  {
    hide Apply, Enabled, Steps;
    OneStep(s, a);
    OneStep(t, b);
    StepsThen(s, [a], t, [b], u);
  }

  lemma OneTick(s: State, e: Event)
    requires OneUnreadable(e) && s.rows == [e] && s.queue == [] && s.leader && s.tokens < SLOTS
    ensures Steps(Anything, s, [Fetch({})] + [Dispatch], s.(tokens := s.tokens + 1, lost := s.lost + 1))
  {
    hide ParseType, Runnable, Steps, Apply;
    FetchOne(s, e);
    var fetched := s.(queue := [e]);
    DispatchUnreadable(fetched, e);
    var t := s.(tokens := s.tokens + 1, lost := s.lost + 1);
    TwoSteps(s, Fetch({}), fetched, Dispatch, t);
  }

  // One unreadable event is enough: its first five ticks use up all five slots.
  lemma {:induction false} OneRowUsesUp(e: Event, n: nat) returns (steps: seq<Step>)
    requires OneUnreadable(e) && n <= 5
    ensures Fetches(steps) == n
    ensures Steps(Anything, LeaderOf(e), steps, LeaderOf(e).(tokens := n, lost := n))
  {
    hide ParseType, Runnable, Apply, Enabled;
    if n == 0 {
      steps := [];
    } else {
      var first := LeaderOf(e).(tokens := n - 1, lost := n - 1);
      steps := OneRowUsesUp(e, n - 1);
      OneTick(first, e);
      var tick := [Fetch({})] + [Dispatch];
      StepsThen(LeaderOf(e), steps, first, tick, LeaderOf(e).(tokens := n, lost := n));
      FetchesAdd(steps, tick);
      assert tick[1..] == [Dispatch] && [Dispatch][1..] == [];
      steps := steps + tick;
    }
  }

  lemma {:induction false} FetchesAdd(a: seq<Step>, b: seq<Step>)
    ensures Fetches(a + b) == Fetches(a) + Fetches(b)
    decreases |a|
  {
    if a == [] {
      assert a + b == b;
    } else {
      assert (a + b)[1..] == a[1..] + b;
      FetchesAdd(a[1..], b);
    }
  }

  lemma OneRowIsBlocking(e: Event)
    requires OneUnreadable(e)
    ensures Blocking(LeaderOf(e), 0) && SlotsBalance(LeaderOf(e))
  {
    hide ParseType, Runnable;
  }

  // ---- Exactly when a slot can be lost ------------------------------------------------------

  // The administrator sets one row to new and every other to failed.
  lemma {:induction false} OnlyOneLeft(s: State, i: nat, n: nat) returns (steps: seq<Step>, t: State)
    requires i < |s.rows| && n <= |s.rows|
    ensures Steps(Anything, s, steps, t) && t == s.(rows := t.rows) && |t.rows| == |s.rows|
    ensures forall j | 0 <= j < |s.rows| ::
              t.rows[j] == if j < n then s.rows[j].(status := if j == i then New else ManualFailed) else s.rows[j]
  {
    hide ParseType, Runnable;
    if n == 0 {
      steps, t := [], s;
    } else {
      var before;
      steps, before := OnlyOneLeft(s, i, n - 1);
      var step := Admin(n - 1, if n - 1 == i then New else ManualFailed);
      t := Apply(before, step);
      OneStep(before, step);
      hide Steps;
      StepsThen(s, steps, before, [step], t);
      steps := steps + [step];
    }
  }

  lemma OnlyOneFetched(rows: seq<Event>, i: nat)
    requires Ranked(rows) && i < |rows| && rows[i].status == New
    requires forall j | 0 <= j < |rows| && j != i :: rows[j].status == ManualFailed
    ensures var q := OmitPaused(Fetchable(rows), {}); q != [] && q[0] == rows[i]
    ensures !FetchPanics(rows)
  {
    LoneRowCompares(rows, i);
    FetchNotEmpty(rows, i);
    var q := OmitPaused(Fetchable(rows), {});
    FetchExact(rows, {}, q[0]);
    hide ParseType, Fetchable, OmitPaused;
  }

  lemma UnreadableLoses(s: State, i: nat) returns (steps: seq<Step>, t: State)
    requires Wf(s) && i < |s.rows| && !Runnable(s.rows[i])
    ensures Steps(Anything, s, steps, t) && t.lost > 0
  {
    var dead := Apply(s, Crash);
    var leader := Apply(dead, Elect(true, true));
    forall j | 0 <= j < |s.rows| ensures SameKind(leader.rows[j], s.rows[j]) { ResetRowsAt(s.rows, j); }
    SameKindUnrunnable(leader.rows[i], s.rows[i]);
    hide ParseType, Runnable;
    var others, left := OnlyOneLeft(leader, i, |s.rows|);
    OnlyOneFetched(left.rows, i);
    var fetched := Apply(left, Fetch({}));
    SameKindUnrunnable(left.rows[i], leader.rows[i]);
    t := Apply(fetched, Dispatch);
    assert t.lost == 1;
    OneStep(s, Crash);
    OneStep(dead, Elect(true, true));
    OneStep(left, Fetch({}));
    OneStep(fetched, Dispatch);
    hide Apply, Enabled, Steps, Wf;
    StepsThen(s, [Crash], dead, [Elect(true, true)], leader);
    StepsThen(s, [Crash] + [Elect(true, true)], leader, others, left);
    StepsThen(left, [Fetch({})], fetched, [Dispatch], t);
    StepsThen(s, [Crash] + [Elect(true, true)] + others, left, [Fetch({})] + [Dispatch], t);
    steps := [Crash] + [Elect(true, true)] + others + ([Fetch({})] + [Dispatch]);
  }

  // Some run from a state without lost slots loses one if and only if some row cannot be
  // read.
  lemma SlotLostExactly(s: State)
    requires Wf(s) && s.lost == 0
    ensures (exists steps, t :: Steps(Anything, s, steps, t) && t.lost > 0)
            <==> exists i :: 0 <= i < |s.rows| && !Runnable(s.rows[i])
  {
    if i :| 0 <= i < |s.rows| && !Runnable(s.rows[i]) {
      var steps, t := UnreadableLoses(s, i);
    } else {
      forall steps, t | Steps(Anything, s, steps, t) ensures t.lost == 0 {
        NoSlotLost(s, steps, t);
      }
    }
  }

  // ---- Where the fetch panics ----------------------------------------------------------------

  // A row without a colon is up for selection, another row is too or was left processing,
  // and nobody is at work, as after a restart.
  ghost predicate Jammed(s: State, i: nat, j: nat) {
    && Ranked(s.rows) && i < |s.rows| && j < |s.rows| && i != j && s.queue == [] && s.workers == []
    && Upcoming(s.rows[i].status) && ':' !in s.rows[i].typ
    && (Upcoming(s.rows[j].status) || s.rows[j].status == Processing)
  }

  lemma JammedStep(s: State, i: nat, j: nat, step: Step)
    requires Jammed(s, i, j) && Enabled(s, step) && !step.Admin?
    ensures Jammed(Apply(s, step), i, j) && !step.Fetch? && !step.Dispatch?
  {
    ApplyExtends(s, step);
    ColonFreePanics(s.rows, i);
    hide ParseType, FetchPanics;
    if step.Elect? {
      ResetRowsAt(s.rows, i);
      ResetRowsAt(s.rows, j);
    }
  }

  // Every fetch panics, restart after restart, and nothing is dispatched before the
  // administrator helps.
  lemma {:induction false} JammedRun(s: State, steps: seq<Step>, t: State, i: nat, j: nat)
    requires Jammed(s, i, j) && Steps(Anything, s, steps, t)
    requires forall k | 0 <= k < |steps| :: !steps[k].Admin?
    ensures Jammed(t, i, j) && FetchPanics(t.rows)
    ensures forall k | 0 <= k < |steps| :: !steps[k].Fetch? && !steps[k].Dispatch?
    decreases |steps|
  {
    ColonFreePanics(s.rows, i);
    hide ParseType, FetchPanics, Apply;
    if steps != [] {
      JammedStep(s, i, j, steps[0]);
      JammedRun(Apply(s, steps[0]), steps[1..], t, i, j);
      assert forall k | 0 < k < |steps| :: steps[k] == steps[1..][k - 1];
    }
  }
}
