// Several processes on one table: who leads is read from the process environment, which every
// Helm call swaps out.
module Leadership {
  import opened Wrappers
  import opened Events
  import opened Dispatcher
  import opened Runs
  import opened Exclusion
  import opened BadRuns
  import Env

  const ELECTOR_PATH := "ELECTOR_PATH"

  // ---- The check ------------------------------------------------------------------------

  predicate HasPath(vars: Env.Vars) {
    ELECTOR_PATH in vars && vars[ELECTOR_PATH] != ""
  }

  // named is whom the elector names, should it be reached. Without a path there is no
  // elector to ask, and the process takes itself for the leader.
  method IsLeader(p: Env.Process, hostname: string, named: Option<string>) returns (answer: Option<bool>)
    ensures answer == if "ELECTOR_PATH" !in p.vars || p.vars["ELECTOR_PATH"] == "" then Some(true)
                      else if named == None then None
                      else Some(hostname == named.value)
  {
    var electorPath := if ELECTOR_PATH in p.vars then p.vars[ELECTOR_PATH] else "";
    if electorPath == "" { return Some(true); }
    if named == None { return None; }
    answer := Some(hostname == named.value);
  }

  // ---- The processes ----------------------------------------------------------------------

  // What a dispatcher has apart from the table, whether the check of this tick went well,
  // and the Helm calls of the process so far.
  datatype Pod = Pod(queue: seq<Event>, workers: seq<Worker>, tokens: nat, lost: nat, leader: bool, cleared: bool,
                     calls: seq<Env.Event>)

  // start is the environment that every process starts with.
  datatype Cluster = Cluster(rows: seq<Event>, hist: seq<Trace>, pods: map<string, Pod>, elected: string,
                             start: Env.Vars)

  datatype Move =
    | Vote(name: string)
    | Take(pod: string, step: Step)
    | Helm(pod: string, call: Env.Event)

  function View(c: Cluster, p: string): State
    requires p in c.pods
  {
    var pod := c.pods[p];
    State(c.rows, c.hist, pod.queue, pod.workers, pod.tokens, pod.lost, pod.leader)
  }

  function Environment(c: Cluster, p: string): Env.Vars
    requires p in c.pods && Env.Matched(c.pods[p].calls)
  {
    Env.After(c.start, c.pods[p].calls)
  }

  predicate Answer(c: Cluster, p: string)
    requires p in c.pods && Env.Matched(c.pods[p].calls)
  {
    !HasPath(Environment(c, p)) || p == c.elected
  }

  // A process takes its own steps on the table. It fetches only in a tick whose check went
  // well, and Helm is called by workers that are at work.
  ghost predicate CanMove(c: Cluster, move: Move) {
    match move
    case Vote(_) => true
    case Take(p, step) =>
      && p in c.pods && Enabled(View(c, p), step)
      && (step.Elect? ==> Env.Matched(c.pods[p].calls) && step.answer == Answer(c, p))
      && (step.Fetch? ==> c.pods[p].cleared)
    case Helm(p, call) =>
      && p in c.pods && Env.Matched(c.pods[p].calls + [call])
      && exists w :: 0 <= w < |c.pods[p].workers| && c.pods[p].workers[w].phase == Working
  }

  function Cleared(pod: Pod, step: Step): bool {
    match step
    case Elect(answer, ok) => answer && (ok || answer == pod.leader)
    case Fetch(_) => false
    case Crash => false
    case _ => pod.cleared
  }

  function AfterMove(c: Cluster, move: Move): Cluster
    requires CanMove(c, move)
  {
    match move
    case Vote(name) => c.(elected := name)
    case Take(p, step) =>
      var pod, t := c.pods[p], Apply(View(c, p), step);
      c.(rows := t.rows, hist := t.hist,
         pods := c.pods[p := Pod(t.queue, t.workers, t.tokens, t.lost, t.leader, Cleared(pod, step),
                                 if step.Crash? then [] else pod.calls)])
    case Helm(p, call) => c.(pods := c.pods[p := c.pods[p].(calls := c.pods[p].calls + [call])])
  }

  // ---- Handing over -------------------------------------------------------------------------

  // Nothing selected, nobody at work, and not between a check and its fetch.
  predicate AtRest(pod: Pod) {
    pod.queue == [] && !pod.cleared && forall w | 0 <= w < |pod.workers| :: pod.workers[w].phase == Released
  }

  // Its Helm calls have put back the environment it started with.
  predicate IsHome(pod: Pod) {
    Env.Matched(pod.calls) && Env.LeadsHome(pod.calls)
  }

  // The vote goes to another process only while all are at rest, their environments restored.
  predicate HandsOver(c: Cluster, move: Move) {
    move.Vote? && move.name != c.elected ==> forall p | p in c.pods :: AtRest(c.pods[p]) && IsHome(c.pods[p])
  }

  // What each process promises of its steps, said of all of them.
  ghost predicate OrderlyMove(c: Cluster, move: Move) {
    move.Take? && move.pod in c.pods ==>
      match move.step
      case Fetch(_) => Settled(View(c, move.pod))
      case Admin(id, _) => forall q | q in c.pods :: NoBusy(View(c, q), id)
      case Elect(answer, _) => answer != c.pods[move.pod].leader ==> forall q | q in c.pods :: NoneBusy(View(c, q))
      case _ => true
  }

  datatype Promise = Nothing | HandOver | OrderlyHandOver

  ghost predicate Keeps(promise: Promise, c: Cluster, move: Move) {
    (promise != Nothing ==> HandsOver(c, move)) && (promise == OrderlyHandOver ==> OrderlyMove(c, move))
  }

  ghost predicate Reaches(promise: Promise, c: Cluster, moves: seq<Move>, d: Cluster)
    decreases |moves|
  {
    if moves == [] then d == c
    else
      CanMove(c, moves[0]) && Keeps(promise, c, moves[0])
      && Reaches(promise, AfterMove(c, moves[0]), moves[1..], d)
  }

  // ---- One process acts --------------------------------------------------------------------

  // All processes but the elected one are at rest, with their own environment.
  ghost predicate OneActs(c: Cluster) {
    && HasPath(c.start)
    && (forall p | p in c.pods :: Env.Matched(c.pods[p].calls))
    && (forall p | p in c.pods && p != c.elected :: AtRest(c.pods[p]) && IsHome(c.pods[p]))
  }

  lemma HomeAnswers(c: Cluster, p: string)
    requires p in c.pods && IsHome(c.pods[p]) && HasPath(c.start)
    ensures Answer(c, p) <==> p == c.elected
  {
    Env.AfterIs(c.start, c.pods[p].calls);
  }

  // A process at rest that is not elected can only learn that it is not.
  lemma RestStays(c: Cluster, p: string, step: Step)
    requires OneActs(c) && p in c.pods && p != c.elected && CanMove(c, Take(p, step))
    ensures AtRest(AfterMove(c, Take(p, step)).pods[p]) && IsHome(AfterMove(c, Take(p, step)).pods[p])
    ensures !step.Fetch? && !step.Dispatch? && !step.Run? && (step.Elect? ==> !step.answer)
  {
    HomeAnswers(c, p);
    hide ParseType, FetchPanics, Env.Matched, Env.LeadsHome, Answer, HasPath;
    assert Env.Matched([]) && Env.LeadsHome([]) by { NoCalls(); }
  }

  lemma NoCalls()
    ensures Env.Matched([]) && Env.LeadsHome([])
  {
  }

  lemma OneActsStep(c: Cluster, move: Move)
    requires OneActs(c) && CanMove(c, move) && HandsOver(c, move)
    ensures OneActs(AfterMove(c, move))
  {
    hide ParseType, FetchPanics, Env.Matched, Env.LeadsHome, Answer, HasPath, Apply;
    NoCalls();
    if move.Take? && move.pod != c.elected { RestStays(c, move.pod, move.step); }
  }

  // A tick that finds out that this process is deposed, or whose reset fails, fetches
  // nothing.
  lemma NotCleared(c: Cluster, p: string, answer: bool, ok: bool, paused: set<string>)
    requires CanMove(c, Take(p, Elect(answer, ok))) && (!answer || (!ok && answer != c.pods[p].leader))
    ensures !CanMove(AfterMove(c, Take(p, Elect(answer, ok))), Take(p, Fetch(paused)))
  {
    hide ParseType, FetchPanics, Answer, Env.Matched, ResetRows;
  }

  // At any time at most one process has selected events or live workers, and that is the
  // elected one.
  lemma {:induction false} OnlyElectedActs(promise: Promise, c: Cluster, moves: seq<Move>, d: Cluster)
    requires OneActs(c) && promise != Nothing && Reaches(promise, c, moves, d)
    ensures OneActs(d)
    decreases |moves|
  {
    hide OneActs, CanMove, HandsOver, OrderlyMove, AfterMove;
    if moves != [] {
      OneActsStep(c, moves[0]);
      OnlyElectedActs(promise, AfterMove(c, moves[0]), moves[1..], d);
    }
  }

  // ---- Mutual exclusion over all processes -----------------------------------------------------

  ghost predicate AllSafe(c: Cluster) {
    forall p | p in c.pods :: Safe(View(c, p))
  }

  // A dispatcher whose table another process has written.
  function Written(s: State, rows: seq<Event>, hist: seq<Trace>): State {
    s.(rows := rows, hist := hist)
  }

  lemma WfWritten(s: State, rows: seq<Event>, hist: seq<Trace>)
    requires Wf(s) && Extends(s.rows, rows) && Ranked(rows) && |hist| == |rows|
    ensures Wf(Written(s, rows, hist))
  {
    hide Runnable;
    assert forall e | Refers(s.rows, e) :: Refers(rows, e);
  }

  lemma IdleIsSafe(s: State)
    requires Wf(s) && s.queue == [] && forall w | 0 <= w < |s.workers| :: s.workers[w].phase == Released
    ensures Safe(s)
  {
    hide ParseType, Runnable, Wf;
  }

  lemma NoneBusyIsSafe(s: State, rows: seq<Event>, hist: seq<Trace>)
    requires Safe(s) && NoneBusy(s) && Extends(s.rows, rows) && Ranked(rows) && |hist| == |rows|
    ensures Safe(Written(s, rows, hist))
  {
    WfWritten(s, rows, hist);
    hide ParseType, Runnable, Wf;
  }

  // What another process that is not elected writes does the elected one no harm.
  lemma OthersWrite(c: Cluster, p: string, step: Step, q: string)
    requires OneActs(c) && AllSafe(c) && CanMove(c, Take(p, step)) && OrderlyMove(c, Take(p, step))
    requires p in c.pods && p != c.elected && q in c.pods && q != p
    ensures Safe(View(AfterMove(c, Take(p, step)), q))
  {
    RestStays(c, p, step);
    var s, t, d := View(c, q), Apply(View(c, p), step), AfterMove(c, Take(p, step));
    assert Safe(s) && Safe(View(c, p)) && View(d, q) == Written(s, t.rows, t.hist);
    hide Safe, OneActs, AllSafe, ParseType, Runnable;
    match step
    case Register(owner, typ) =>
      SafeStep(s, step);
      assert Written(s, t.rows, t.hist) == Apply(s, step);
    case Admin(id, status) =>
      SafeStep(s, step);
      assert Written(s, t.rows, t.hist) == Apply(s, step);
    case Elect(answer, ok) =>
      ApplyExtends(View(c, p), step) by { SafeMeans(View(c, p)); }
      if answer == c.pods[p].leader {
        assert Written(s, t.rows, t.hist) == s;
      } else {
        SafeMeans(View(c, p));
        NoneBusyIsSafe(s, t.rows, t.hist);
      }
    case Crash =>
      assert Written(s, t.rows, t.hist) == s;
  }

  lemma SafeMeans(s: State)
    requires Safe(s)
    ensures Wf(s) && Ranked(s.rows) && |s.hist| == |s.rows|
  {
  }

  // What the elected one writes, or anyone, does no harm to one that is at rest.
  lemma RestIsSafe(c: Cluster, p: string, step: Step, q: string)
    requires AllSafe(c) && CanMove(c, Take(p, step)) && p in c.pods && q in c.pods && q != p && AtRest(c.pods[q])
    ensures Safe(View(AfterMove(c, Take(p, step)), q))
  {
    var s, v := View(c, q), View(c, p);
    assert Safe(s) && Safe(v);
    SafeMeans(s);
    SafeMeans(v);
    ApplyExtends(v, step);
    WfStep(v, step);
    var t := Apply(v, step);
    assert |t.hist| == |t.rows| && Ranked(t.rows);
    WfWritten(s, t.rows, t.hist);
    hide Safe, AllSafe, Apply, Wf, ParseType, Runnable;
    IdleIsSafe(Written(s, t.rows, t.hist));
  }

  lemma OwnStepIsSafe(c: Cluster, p: string, step: Step)
    requires AllSafe(c) && CanMove(c, Take(p, step)) && OrderlyMove(c, Take(p, step)) && p in c.pods
    ensures Safe(View(AfterMove(c, Take(p, step)), p))
  {
    assert Safe(View(c, p));
    hide Safe, AllSafe, ParseType, Apply, Enabled;
    SafeStep(View(c, p), step);
  }

  lemma AllSafeStep(c: Cluster, move: Move)
    requires OneActs(c) && AllSafe(c) && CanMove(c, move) && Keeps(OrderlyHandOver, c, move)
    ensures AllSafe(AfterMove(c, move))
  {
    var d := AfterMove(c, move);
    forall q | q in d.pods ensures Safe(View(d, q)) {
      assert Safe(View(c, q));
      if !move.Take? {
        assert View(d, q) == View(c, q);
      } else if q == move.pod {
        OwnStepIsSafe(c, q, move.step);
      } else if move.pod == c.elected {
        RestIsSafe(c, move.pod, move.step, q);
      } else {
        OthersWrite(c, move.pod, move.step, q);
      }
    }
  }

  // Processes that have just started, on any table.
  ghost predicate StartsAll(c: Cluster) {
    HasPath(c.start) && forall p | p in c.pods :: Starts(View(c, p)) && !c.pods[p].cleared && c.pods[p].calls == []
  }

  lemma StartsSafe(c: Cluster)
    requires StartsAll(c)
    ensures OneActs(c) && AllSafe(c)
  {
    NoCalls();
    forall p | p in c.pods ensures Safe(View(c, p)) { IdleIsSafe(View(c, p)); }
  }

  lemma {:induction false} AllSafeRun(c: Cluster, moves: seq<Move>, d: Cluster)
    requires OneActs(c) && AllSafe(c) && Reaches(OrderlyHandOver, c, moves, d)
    ensures OneActs(d) && AllSafe(d)
    decreases |moves|
  {
    hide OneActs, AllSafe, CanMove, AfterMove, HandsOver, OrderlyMove;
    if moves != [] {
      OneActsStep(c, moves[0]);
      AllSafeStep(c, moves[0]);
      AllSafeRun(AfterMove(c, moves[0]), moves[1..], d);
    }
  }

  // No two workers of any processes ever act for the same owner and resource, whatever the
  // table held, however many processes there are and however often leadership moves.
  lemma ClusterExclusion(c: Cluster, moves: seq<Move>, d: Cluster, p: string, a: nat, q: string, b: nat)
    requires StartsAll(c) && Reaches(OrderlyHandOver, c, moves, d)
    requires p in d.pods && q in d.pods && a < |d.pods[p].workers| && b < |d.pods[q].workers| && (p != q || a != b)
    requires d.pods[p].workers[a].phase == Working && d.pods[q].workers[b].phase == Working
    ensures p == q == d.elected
    ensures !SameClass(d.pods[p].workers[a].ev, d.pods[q].workers[b].ev)
  {
    StartsSafe(c);
    AllSafeRun(c, moves, d);
    assert !AtRest(d.pods[p]) && !AtRest(d.pods[q]);
    var s := View(d, p);
    assert Safe(s);
    hide ParseType, AllSafe, Reaches;
    if b < a { assert !SameClass(s.workers[b].ev, s.workers[a].ev); }
  }

  // ---- Runs that go wrong ------------------------------------------------------------------------

  lemma OneMove(c: Cluster, move: Move)
    requires CanMove(c, move) && !move.Vote?
    ensures Reaches(HandOver, c, [move], AfterMove(c, move))
  {
    hide CanMove, AfterMove;
    assert [move][1..] == [];
    assert Reaches(HandOver, AfterMove(c, move), [], AfterMove(c, move));
  }

  lemma {:induction false} ReachesThen(promise: Promise, c: Cluster, moves: seq<Move>, d: Cluster, more: seq<Move>,
                                       e: Cluster)
    requires Reaches(promise, c, moves, d) && Reaches(promise, d, more, e)
    ensures Reaches(promise, c, moves + more, e)
    decreases |moves|
  {
    hide CanMove, AfterMove;
    if moves == [] {
      assert moves + more == more;
    } else {
      ReachesThen(promise, AfterMove(c, moves[0]), moves[1..], d, more, e);
      assert (moves + more)[1..] == moves[1..] + more;
    }
  }

  // One tick of a process that takes itself for the leader, with one event that it can take
  // up: selected at once, or left processing by another and reset when this one becomes
  // leader.
  predicate CanTakeUp(c: Cluster, p: string) {
    && p in c.pods && |c.rows| == 1 && |c.hist| == 1 && c.rows[0].id == 0 && Runnable(c.rows[0])
    && c.pods[p].queue == [] && c.pods[p].tokens < SLOTS && Env.Matched(c.pods[p].calls) && Answer(c, p)
    && (Upcoming(c.rows[0].status) || (!c.pods[p].leader && c.rows[0].status == Processing))
  }

  // What that leaves: the event is processing, and one more worker works on it.
  predicate TookUp(c: Cluster, p: string, d: Cluster)
    requires CanTakeUp(c, p)
  {
    && d.elected == c.elected && d.start == c.start && d.pods.Keys == c.pods.Keys && |d.rows| == 1 && |d.hist| == 1
    && d.rows[0] == c.rows[0].(status := Processing)
    && (forall q | q in c.pods && q != p :: d.pods[q] == c.pods[q])
    && var was, now := c.pods[p], d.pods[p];
       && now.queue == [] && now.leader && !now.cleared && now.tokens == was.tokens + 1 && now.calls == was.calls
       && |now.workers| == |was.workers| + 1 && now.workers[..|was.workers|] == was.workers
       && now.workers[|was.workers|].phase == Working && now.workers[|was.workers|].ev.id == 0
  }

  lemma Checks(c: Cluster, p: string) returns (d: Cluster, e: Event)
    requires CanTakeUp(c, p)
    ensures CanMove(c, Take(p, Elect(true, true))) && d == AfterMove(c, Take(p, Elect(true, true)))
    ensures SameKind(e, c.rows[0]) && e.retryCount == c.rows[0].retryCount && Upcoming(e.status)
    ensures d == c.(rows := [e], pods := c.pods[p := c.pods[p].(cleared := true, leader := true)])
  {
    hide ParseType, Runnable, FetchPanics;
    d := AfterMove(c, Take(p, Elect(true, true)));
    e := d.rows[0];
    ResetRowsAt(c.rows, 0);
    assert d.rows == [e];
  }

  lemma Fetches(c: Cluster, p: string, e: Event)
    requires p in c.pods && c.rows == [e] && e.id == 0 && Upcoming(e.status)
    requires c.pods[p].queue == [] && c.pods[p].leader && c.pods[p].cleared
    ensures CanMove(c, Take(p, Fetch({})))
    ensures AfterMove(c, Take(p, Fetch({}))) == c.(pods := c.pods[p := c.pods[p].(queue := [e], cleared := false)])
  {
    FetchOne(View(c, p), e);
    hide Runnable, ParseType, Apply, Enabled, Answer;
  }

  lemma TickFetches(c: Cluster, p: string) returns (moves: seq<Move>, d: Cluster, e: Event)
    requires CanTakeUp(c, p)
    ensures Reaches(HandOver, c, moves, d)
    ensures SameKind(e, c.rows[0]) && e.retryCount == c.rows[0].retryCount && Upcoming(e.status)
    ensures d == c.(rows := [e], pods := c.pods[p := c.pods[p].(queue := [e], leader := true, cleared := false)])
  {
    var check, fetch := Take(p, Elect(true, true)), Take(p, Fetch({}));
    var c1;
    c1, e := Checks(c, p);
    Fetches(c1, p, e);
    hide Reaches, Runnable, ParseType, CanMove, AfterMove, Answer, FetchPanics;
    OneMove(c, check);
    OneMove(c1, fetch);
    d := AfterMove(c1, fetch);
    ReachesThen(HandOver, c, [check], c1, [fetch], d);
    moves := [check] + [fetch];
  }

  lemma TakesUp(c: Cluster, p: string) returns (moves: seq<Move>, d: Cluster)
    requires CanTakeUp(c, p)
    ensures Reaches(HandOver, c, moves, d) && TookUp(c, p, d)
  {
    var c2, e;
    moves, c2, e := TickFetches(c, p);
    hide ParseType, Answer, Reaches;
    var h := c2.hist[0];
    assert c2.hist == [h];
    SameKindRunnable(c.rows[0], e);
    DispatchOne(View(c2, p), e, h);
    var dispatch := Take(p, Dispatch);
    var c3 := AfterMove(c2, dispatch);
    var w := |c2.pods[p].workers|;
    var mark := Take(p, Run(w, Mark(true)));
    d := AfterMove(c3, mark);
    OneMove(c2, dispatch);
    OneMove(c3, mark);
    ReachesThen(HandOver, c2, [dispatch], c3, [mark], d);
    ReachesThen(HandOver, c, moves, c2, [dispatch] + [mark], d);
    moves := moves + ([dispatch] + [mark]);
  }

  // A process whose path is gone takes itself for the leader, whoever is elected, as long as
  // it makes no Helm call and does not restart.
  lemma {:induction false} PathStaysGone(promise: Promise, c: Cluster, moves: seq<Move>, d: Cluster, p: string)
    requires p in c.pods && Env.Matched(c.pods[p].calls) && !HasPath(Environment(c, p))
    requires Reaches(promise, c, moves, d)
    requires forall i | 0 <= i < |moves| :: (moves[i].Helm? ==> moves[i].pod != p) && moves[i] != Take(p, Crash)
    ensures p in d.pods && Env.Matched(d.pods[p].calls) && !HasPath(Environment(d, p)) && Answer(d, p)
    decreases |moves|
  {
    hide ParseType, Apply, Enabled, HasPath, Env.After, Env.Matched, HandsOver, OrderlyMove;
    if moves != [] {
      var next := AfterMove(c, moves[0]);
      assert next.start == c.start && p in next.pods && next.pods[p].calls == c.pods[p].calls;
      assert forall i | 0 <= i < |moves[1..]| :: moves[1..][i] == moves[i + 1];
      PathStaysGone(promise, next, moves[1..], d, p);
    }
  }

  // A call in progress, or two that crossed, take the path away.
  lemma CallsTakePath(c: Cluster, p: string, first: Env.Vars, second: Env.Vars)
    requires p in c.pods && !HasPath(first)
    requires c.pods[p].calls == [Env.Establish(1, first)]
             || c.pods[p].calls == [Env.Establish(1, first), Env.Establish(2, second), Env.Restore(1), Env.Restore(2)]
    ensures Env.Matched(c.pods[p].calls) && !HasPath(Environment(c, p)) && !IsHome(c.pods[p])
  {
    if c.pods[p].calls == [Env.Establish(1, first)] {
      assert [] + [Env.Establish(1, first)] == [Env.Establish(1, first)];
      NoCalls();
      Env.MatchedSnoc([], Env.Establish(1, first));
    } else {
      Env.OverlapLeaks(c.start, first, second);
    }
  }

  predicate BothWork(d: Cluster, p: string, a: nat, q: string, b: nat) {
    && p in d.pods && q in d.pods && a < |d.pods[p].workers| && b < |d.pods[q].workers| && (p != q || a != b)
    && d.pods[p].workers[a].phase == Working && d.pods[q].workers[b].phase == Working
    && d.pods[p].workers[a].ev.id == d.pods[q].workers[b].ev.id
  }

  lemma {:induction false} PromisesLess(promise: Promise, c: Cluster, moves: seq<Move>, d: Cluster)
    requires Reaches(promise, c, moves, d)
    ensures Reaches(Nothing, c, moves, d)
    decreases |moves|
  {
    hide CanMove, AfterMove;
    if moves != [] { PromisesLess(promise, AfterMove(c, moves[0]), moves[1..], d); }
  }

  // The vote goes to q while p is at work: q becomes leader, resets the event and takes it
  // up.
  lemma BusyHandOverDoubles(c: Cluster, p: string, q: string) returns (moves: seq<Move>, d: Cluster)
    requires CanTakeUp(c, p) && p != q && q in c.pods && !c.pods[q].leader
    requires AtRest(c.pods[q]) && IsHome(c.pods[q]) && HasPath(c.start) && c.pods[q].tokens < SLOTS
    ensures Reaches(Nothing, c, moves, d)
    ensures BothWork(d, p, |c.pods[p].workers|, q, |c.pods[q].workers|)
  {
    var one, c1 := TakesUp(c, p);
    var vote := Vote(q);
    var c2 := AfterMove(c1, vote);
    assert Runnable(c1.rows[0]) by { SameKindRunnable(c.rows[0], c1.rows[0]); }
    HomeAnswers(c2, q);
    hide Runnable, IsHome, AtRest, Answer;
    var other;
    other, d := TakesUp(c2, q);
    assert Reaches(Nothing, c1, [vote], c2) by { assert [vote][1..] == []; }
    hide Reaches;
    PromisesLess(HandOver, c, one, c1);
    PromisesLess(HandOver, c2, other, d);
    ReachesThen(Nothing, c, one, c1, [vote], c2);
    ReachesThen(Nothing, c, one + [vote], c2, other, d);
    moves := one + [vote] + other;
  }

  // All are at rest when the vote has gone to q, but p has lost its path: both take up the
  // same event.
  lemma DeposedGoesOn(c: Cluster, p: string, q: string) returns (moves: seq<Move>, d: Cluster)
    requires CanTakeUp(c, p) && CanTakeUp(c, q) && p != q && c.elected == q && !c.pods[q].leader
    requires AtRest(c.pods[p]) && AtRest(c.pods[q]) && IsHome(c.pods[q]) && !HasPath(Environment(c, p))
    ensures Reaches(HandOver, c, moves, d)
    ensures d.pods.Keys == c.pods.Keys && d.pods[p].leader && d.pods[q].leader && d.elected == q
    ensures BothWork(d, p, |c.pods[p].workers|, q, |c.pods[q].workers|)
  {
    var one, c1 := TakesUp(c, p);
    assert Runnable(c1.rows[0]) by { SameKindRunnable(c.rows[0], c1.rows[0]); }
    hide Runnable, Reaches, IsHome, AtRest;
    var other;
    other, d := TakesUp(c1, q);
    ReachesThen(HandOver, c, one, c1, other, d);
    moves := one + other;
  }

  // All are at rest and at home when the vote has gone to q, but p notices late: its reset
  // puts back the event that q is working on, and q takes it up once more.
  lemma LateNoticeDoubles(c: Cluster, p: string, q: string) returns (moves: seq<Move>, d: Cluster)
    requires p in c.pods && CanTakeUp(c, q) && p != q && c.elected == q && c.pods[p].leader && !c.pods[q].leader
    requires AtRest(c.pods[p]) && AtRest(c.pods[q]) && IsHome(c.pods[p]) && IsHome(c.pods[q]) && HasPath(c.start)
    requires c.pods[q].tokens + 1 < SLOTS
    ensures Reaches(HandOver, c, moves, d)
    ensures BothWork(d, q, |c.pods[q].workers|, q, |c.pods[q].workers| + 1)
  {
    var one, c1 := TakesUp(c, q);
    assert Runnable(c1.rows[0]) by { SameKindRunnable(c.rows[0], c1.rows[0]); }
    HomeAnswers(c1, p);
    HomeAnswers(c1, q);
    hide Reaches, IsHome, AtRest, Answer;
    var c2 := Notices(c1, p);
    hide Runnable;
    var other;
    other, d := TakesUp(c2, q);
    var notice := Take(p, Elect(false, true));
    ReachesThen(HandOver, c, one, c1, [notice], c2);
    ReachesThen(HandOver, c, one + [notice], c2, other, d);
    moves := one + [notice] + other;
    var w := |c.pods[q].workers|;
    assert d.pods[q].workers[..w + 1][w] == c1.pods[q].workers[w];
  }

  lemma Notices(c: Cluster, p: string) returns (d: Cluster)
    requires p in c.pods && c.pods[p].queue == [] && c.pods[p].leader && Env.Matched(c.pods[p].calls) && !Answer(c, p)
    requires |c.rows| == 1 && c.rows[0].status == Processing
    ensures CanMove(c, Take(p, Elect(false, true)))
    ensures Reaches(HandOver, c, [Take(p, Elect(false, true))], d)
    ensures d == c.(rows := [c.rows[0].(status := Pending)], pods := d.pods) && d.pods.Keys == c.pods.Keys
    ensures forall q | q in c.pods && q != p :: d.pods[q] == c.pods[q]
  {
    hide ParseType, Answer;
    var notice := Take(p, Elect(false, true));
    OneMove(c, notice);
    d := AfterMove(c, notice);
    ResetRowsAt(c.rows, 0);
    assert ResetRows(c.rows) == [c.rows[0].(status := Pending)];
    assert c.hist == d.hist;
  }
}
