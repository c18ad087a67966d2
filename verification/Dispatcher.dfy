// The dispatcher as a state machine. One step is one database statement or one channel
// operation, so every interleaving of the dispatch loop, its workers, API calls and the
// administrator is a sequence of steps.
module Dispatcher {
  import opened Wrappers
  import opened Events
  import opened Decimal

  const SLOTS: nat := 5
  const MAX_RETRIES: nat := 5

  // ---- State ----------------------------------------------------------------

  // Where a worker stands. Starting has not marked its event yet; Working runs the
  // action; Failing and Counted are the two halves of retry bookkeeping; Done has only
  // its slot left to give back.
  datatype Phase = Starting | Working | Completing | Failing | Counted | Done | Released

  // A worker holds the event as it was fetched.
  datatype Worker = Worker(ev: Event, phase: Phase)

  // History of one row: how often a worker was started for it, how many events those
  // workers registered, and the row whose request it descends from.
  datatype Trace = Trace(starts: nat, spawned: nat, root: nat)

  datatype State = State(
    rows: seq<Event>,
    hist: seq<Trace>,
    queue: seq<Event>,
    workers: seq<Worker>,
    tokens: nat,
    lost: nat,
    leader: bool)

  predicate Busy(p: Phase) { p != Done && p != Released }

  predicate Active(p: Phase) { p == Starting || p == Working || p == Completing }

  // ---- Events that workers register -----------------------------------------

  function DeadlineMinutes(t: EventType): (m: nat)
    ensures 0 < m < 60
  {
    match t
    case CreateAirflow => 30
    case UpdateAirflow => 15
    case HelmUninstallAirflow => 10
    case _ => 5
  }

  function SpawnOf(t: EventType): Option<EventType> {
    match t
    case UpdateTeam => Some(UpdateAirflow)
    case DeleteTeam => Some(DeleteAirflow)
    case CreateAirflow => Some(HelmRolloutAirflow)
    case UpdateAirflow => Some(HelmRolloutAirflow)
    case DeleteAirflow => Some(HelmUninstallAirflow)
    case HelmRolloutAirflow => Some(HelmRollbackAirflow)
    case _ => None
  }

  // Which outcomes an action has. A rollout registers a rollback only when it fails;
  // every other registration is the last thing a successful action does.
  predicate WorkAllows(t: EventType, ok: bool, spawn: bool) {
    match t
    case UpdateTeam => spawn ==> ok
    case DeleteTeam => spawn == ok
    case CreateAirflow => spawn == ok
    case UpdateAirflow => spawn == ok
    case DeleteAirflow => spawn == ok
    case HelmRolloutAirflow => spawn ==> !ok
    case _ => !spawn
  }

  predicate Runnable(e: Event) {
    ParseType(e.typ).Some? && ParseDuration(e.deadline).Some?
  }

  lemma SameKindRunnable(a: Event, b: Event)
    requires SameKind(a, b) && Runnable(a)
    ensures Runnable(b)
  {
    hide ParseType;
  }

  // ---- Steps ----------------------------------------------------------------

  // ok says whether the database accepted the statement.
  datatype Act =
    | DecodeFail(ok: bool)
    | Mark(ok: bool)
    | Work(ok: bool, spawn: bool)
    | Complete(ok: bool)
    | GiveUp(ok: bool)
    | Count(ok: bool)
    | Requeue(late: bool, ok: bool)
    | Release

  datatype Step =
    | Register(owner: string, typ: EventType)
    | Elect(answer: bool, ok: bool)
    | Fetch(paused: set<string>)
    | Dispatch
    | Run(w: nat, act: Act)
    | Admin(id: nat, status: Status)
    | Crash

  predicate ActEnabled(w: Worker, act: Act) {
    match act
    case DecodeFail(_) => w.phase == Starting
    case Mark(_) => w.phase == Starting
    case Work(ok, spawn) =>
      w.phase == Working && ParseType(w.ev.typ).Some? && WorkAllows(ParseType(w.ev.typ).value, ok, spawn)
    case Complete(_) => w.phase == Completing
    case GiveUp(_) => w.phase == Failing && w.ev.retryCount > MAX_RETRIES
    case Count(_) => w.phase == Failing && w.ev.retryCount <= MAX_RETRIES
    case Requeue(_, _) => w.phase == Counted
    case Release => w.phase == Done
  }

  function NextPhase(act: Act): Phase {
    match act
    case DecodeFail(_) => Failing
    case Mark(ok) => if ok then Working else Failing
    case Work(ok, _) => if ok then Completing else Failing
    case Complete(ok) => if ok then Done else Failing
    case GiveUp(_) => Done
    case Count(_) => Counted
    case Requeue(_, _) => Done
    case Release => Released
  }

  function NextRow(e: Event, act: Act): Event {
    match act
    case DecodeFail(ok) => if ok then e.(status := Failed) else e
    case Mark(ok) => if ok then e.(status := Processing) else e
    case Complete(ok) => if ok then e.(status := Completed) else e
    case GiveUp(ok) => if ok then e.(status := Failed) else e
    case Count(ok) => if ok then e.(retryCount := e.retryCount + 1) else e
    case Requeue(late, ok) =>
      if ok then e.(status := if late then DeadlineReached else Pending) else e
    case _ => e
  }

  predicate Enabled(s: State, step: Step) {
    match step
    case Register(_, _) => true
    case Elect(_, _) => s.queue == []
    case Fetch(_) => s.leader && s.queue == [] && !FetchPanics(s.rows)
    case Dispatch => s.queue != [] && s.tokens < SLOTS
    case Run(w, act) =>
      w < |s.workers| && s.workers[w].ev.id < |s.rows| <= |s.hist| && ActEnabled(s.workers[w], act)
      && (act.Release? ==> s.tokens > 0)
    case Admin(id, status) => id < |s.rows| && (status == New || status == ManualFailed)
    case Crash => true
  }

  function NewRow(id: nat, owner: string, t: EventType): Event {
    Event(id, owner, TypeName(t), DurationString(DeadlineMinutes(t)), New, 0)
  }

  function Insert(s: State, owner: string, t: EventType, root: nat): State {
    s.(rows := s.rows + [NewRow(|s.rows|, owner, t)], hist := s.hist + [Trace(0, 0, root)])
  }

  function Move(s: State, w: nat, act: Act): State
    requires w < |s.workers| && s.workers[w].ev.id < |s.rows|
  {
    var id := s.workers[w].ev.id;
    s.(rows := s.rows[id := NextRow(s.rows[id], act)],
       workers := s.workers[w := s.workers[w].(phase := NextPhase(act))])
  }

  function RunAct(s: State, w: nat, act: Act): State
    requires Enabled(s, Run(w, act))
  {
    var m := Move(s, w, act);
    var id := s.workers[w].ev.id;
    match act
    case Release => m.(tokens := s.tokens - 1)
    case Work(_, true) =>
      Insert(m.(hist := s.hist[id := s.hist[id].(spawned := s.hist[id].spawned + 1)]),
             s.workers[w].ev.owner,
             SpawnOf(ParseType(s.workers[w].ev.typ).value).value,
             s.hist[id].root)
    case _ => m
  }

  // The dispatch loop takes a slot for the next event. A row whose type or deadline it
  // cannot read leaves that slot taken for good.
  function DispatchNext(s: State): State
    requires s.queue != []
  {
    var e := s.queue[0];
    var t := s.(queue := s.queue[1..], tokens := s.tokens + 1);
    if Runnable(e) && e.id < |s.hist| then
      t.(workers := s.workers + [Worker(e, Starting)],
         hist := s.hist[e.id := s.hist[e.id].(starts := s.hist[e.id].starts + 1)])
    else
      t.(lost := s.lost + 1)
  }

  function Apply(s: State, step: Step): State
    requires Enabled(s, step)
  {
    match step
    case Register(owner, t) => Insert(s, owner, t, |s.rows|)
    case Elect(answer, ok) =>
      if answer == s.leader then s
      else s.(leader := answer, rows := if ok then ResetRows(s.rows) else s.rows)
    case Fetch(paused) => s.(queue := OmitPaused(Fetchable(s.rows), paused))
    case Dispatch => DispatchNext(s)
    case Run(w, act) => RunAct(s, w, act)
    case Admin(id, status) => s.(rows := s.rows[id := s.rows[id].(status := status)])
    case Crash => s.(queue := [], workers := [], tokens := 0, lost := 0, leader := false)
  }

  // ---- Well-formedness --------------------------------------------------------

  predicate Refers(rows: seq<Event>, e: Event) {
    e.id < |rows| && SameKind(rows[e.id], e)
  }

  ghost predicate Wf(s: State) {
    && Ranked(s.rows)
    && |s.hist| == |s.rows|
    && (forall i | 0 <= i < |s.queue| :: Refers(s.rows, s.queue[i]))
    && (forall a | 0 <= a < |s.workers| :: Refers(s.rows, s.workers[a].ev) && Runnable(s.workers[a].ev))
  }

  // Rows are only appended, and keep what identifies them.
  predicate Extends(earlier: seq<Event>, later: seq<Event>) {
    |earlier| <= |later| && forall i | 0 <= i < |earlier| :: SameKind(later[i], earlier[i])
  }

  lemma ResetRowsAt(rows: seq<Event>, i: nat)
    requires i < |rows|
    ensures SameKind(ResetRows(rows)[i], rows[i])
    ensures ResetRows(rows)[i].retryCount == rows[i].retryCount
    ensures ResetRows(rows)[i].status == if rows[i].status == Processing then Pending else rows[i].status
  {
  }

  lemma RunExtends(s: State, w: nat, act: Act)
    requires Ranked(s.rows) && Enabled(s, Run(w, act))
    ensures Extends(s.rows, RunAct(s, w, act).rows)
    ensures Ranked(RunAct(s, w, act).rows)
  {
    hide ParseType, Runnable, ActEnabled, WorkAllows, SpawnOf, TypeName, DurationString;
  }

  lemma ApplyExtends(s: State, step: Step)
    requires Ranked(s.rows) && Enabled(s, step)
    ensures Extends(s.rows, Apply(s, step).rows)
    ensures Ranked(Apply(s, step).rows)
  {
    hide ParseType, Runnable;
    if step.Run? {
      RunExtends(s, step.w, step.act);
      hide RunAct;
    }
    if step.Elect? {
      forall i | 0 <= i < |s.rows| ensures SameKind(ResetRows(s.rows)[i], s.rows[i]) {
        ResetRowsAt(s.rows, i);
      }
    }
  }

  lemma QueueRefers(s: State, paused: set<string>)
    requires Ranked(s.rows)
    ensures forall i | 0 <= i < |OmitPaused(Fetchable(s.rows), paused)| ::
              OmitPaused(Fetchable(s.rows), paused)[i] in s.rows
  {
    var q := OmitPaused(Fetchable(s.rows), paused);
    forall i | 0 <= i < |q| ensures q[i] in s.rows { FetchExact(s.rows, paused, q[i]); }
  }

  lemma WfInsert(s: State, owner: string, t: EventType, root: nat)
    requires Wf(s)
    ensures Wf(Insert(s, owner, t, root))
  {
    hide ParseType, TypeName, Runnable;
    var u := Insert(s, owner, t, root);
    assert forall i | 0 <= i < |s.rows| :: u.rows[i] == s.rows[i];
  }

  lemma WfMove(s: State, w: nat, act: Act)
    requires Wf(s) && w < |s.workers|
    ensures Wf(Move(s, w, act))
  {
    hide ParseType, Runnable;
    var t := Move(s, w, act);
    var id := s.workers[w].ev.id;
    assert forall i | 0 <= i < |s.rows| :: SameKind(t.rows[i], s.rows[i]);
    assert forall a | 0 <= a < |s.workers| :: t.workers[a].ev == s.workers[a].ev;
  }

  lemma WfOnlyRefs(s: State, t: State)
    requires Wf(s) && t.rows == s.rows && t.queue == s.queue && t.workers == s.workers && |t.hist| == |s.hist|
    ensures Wf(t)
  {
    hide Runnable;
  }

  lemma WfRunAct(s: State, w: nat, act: Act)
    requires Wf(s) && Enabled(s, Run(w, act))
    ensures Wf(Apply(s, Run(w, act)))
  {
    WfMove(s, w, act);
    hide ParseType, Runnable, Wf;
    var m := Move(s, w, act);
    if act.Work? && act.spawn {
      var id := s.workers[w].ev.id;
      var charged := m.(hist := s.hist[id := s.hist[id].(spawned := s.hist[id].spawned + 1)]);
      WfOnlyRefs(m, charged);
      WfInsert(charged, s.workers[w].ev.owner, SpawnOf(ParseType(s.workers[w].ev.typ).value).value, s.hist[id].root);
    } else {
      WfOnlyRefs(m, Apply(s, Run(w, act)));
    }
  }

  lemma WfDispatch(s: State)
    requires Wf(s) && Enabled(s, Dispatch)
    ensures Wf(Apply(s, Dispatch))
  {
    hide ParseType, ParseDuration, Runnable;
    var t := Apply(s, Dispatch);
    assert forall i | 0 <= i < |t.queue| :: t.queue[i] == s.queue[i + 1];
  }

  lemma WfRows(s: State, rows: seq<Event>)
    requires Wf(s) && Extends(s.rows, rows) && |rows| == |s.rows| && Ranked(rows)
    ensures Wf(s.(rows := rows))
  {
    hide Runnable;
    assert forall e | Refers(s.rows, e) :: Refers(rows, e);
  }

  lemma WfStep(s: State, step: Step)
    requires Wf(s) && Enabled(s, step)
    ensures Wf(Apply(s, step))
  {
    ApplyExtends(s, step);
    hide ParseType, Runnable;
    match step
    case Register(owner, t) => WfInsert(s, owner, t, |s.rows|);
    case Elect(answer, ok) =>
      if answer != s.leader && ok {
        WfRows(s, ResetRows(s.rows));
        WfOnlyRefs(s.(rows := ResetRows(s.rows)), Apply(s, step));
      }
    case Fetch(paused) => QueueRefers(s, paused);
    case Dispatch => WfDispatch(s);
    case Run(w, act) => WfRunAct(s, w, act);
    case Admin(id, status) => WfRows(s, Apply(s, step).rows);
    case Crash =>
  }
}
