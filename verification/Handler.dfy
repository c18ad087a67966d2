// The event handler as the program runs it: one tick of the dispatch loop, one dispatch,
// and the body of a worker, each proved to take the corresponding steps.
module Handler {
  import opened Wrappers
  import opened Decimal
  import opened Events
  import opened Dispatcher
  import opened Kinds

  // ---- Maintenance periods ----------------------------------------------------

  datatype Period = Period(start: int, end: int)

  type Periods = map<string, seq<Period>>

  predicate InPeriod(p: Period, now: int) { p.start < now < p.end }

  ghost predicate Paused(periods: Periods, now: int, team: string) {
    team in periods && exists p | p in periods[team] :: InPeriod(p, now)
  }

  ghost function PausedTeams(periods: Periods, now: int): set<string> {
    set team | team in periods && Paused(periods, now, team)
  }

  method ActiveExcludePeriodForTeam(periods: Periods, now: int, team: string) returns (active: Option<Period>)
    ensures active.Some? <==> team in periods && exists p | p in periods[team] :: p.start < now < p.end
    ensures active.Some? ==> active.value in periods[team] && active.value.start < now < active.value.end
    ensures active.Some? <==> Paused(periods, now, team)
  {
    if team in periods {
      for i := 0 to |periods[team]|
        invariant forall j | 0 <= j < i :: !InPeriod(periods[team][j], now)
      {
        if periods[team][i].start < now < periods[team][i].end { return Some(periods[team][i]); }
      }
    }
    return None;
  }

  method OmitAirflowEventsIfUpgradesPaused(events: seq<Event>, periods: Periods, now: int) returns (out: seq<Event>)
    ensures out == OmitPaused(events, PausedTeams(periods, now))
    ensures forall e :: e in out <==>
              e in events
              && !(e.typ in {"create:airflow", "update:airflow", "rolloutAirflow:helm", "rollbackAirflow:helm"}
                   && e.owner in periods && exists p | p in periods[e.owner] :: p.start < now < p.end)
  {
    out := [];
    for i := 0 to |events|
      invariant out == OmitPaused(events[..i], PausedTeams(periods, now))
    {
      assert events[..i + 1][..i] == events[..i];
      var active := ActiveExcludePeriodForTeam(periods, now, events[i].owner);
      PausableExactly(events[i].typ);
      var held := events[i].typ in {"create:airflow", "update:airflow", "rolloutAirflow:helm", "rollbackAirflow:helm"};
      if !(held && active.Some?) { out := out + [events[i]]; }
    }
    assert events[..|events|] == events;
    hide Pausable, OmitPaused;
    forall e ensures e in out <==> e in events && !(Pausable(e.typ) && Paused(periods, now, e.owner)) {
      OmitPausedExact(events, PausedTeams(periods, now), e);
    }
    forall e: Event { PausableExactly(e.typ); }
  }

  // ---- The worker's script -------------------------------------------------------

  // What the world answers one worker: whether the payload decodes, what the action does,
  // whether the deadline has passed, and which statements the database accepts.
  datatype World = World(
    decodes: bool, failedOk: bool, markOk: bool,
    workOk: bool, spawn: bool, completeOk: bool,
    giveUpOk: bool, countOk: bool, late: bool, requeueOk: bool)

  function AttemptActs(world: World): seq<Act> {
    if !world.decodes then [DecodeFail(world.failedOk)]
    else if !world.markOk then [Mark(false)]
    else if !world.workOk then [Mark(true), Work(false, world.spawn)]
    else [Mark(true), Work(true, world.spawn), Complete(world.completeOk)]
  }

  predicate AttemptFails(world: World) {
    !world.decodes || !world.markOk || !world.workOk || !world.completeOk
  }

  function BookkeepingActs(ev: Event, world: World): seq<Act> {
    if !AttemptFails(world) then []
    else if ev.retryCount > MAX_RETRIES then [GiveUp(world.giveUpOk)]
    else [Count(world.countOk), Requeue(world.late, world.requeueOk)]
  }

  // s leads to t when worker w takes these acts, one after the other.
  ghost predicate Acts(s: State, w: nat, acts: seq<Act>, t: State)
    decreases |acts|
  {
    if acts == [] then t == s
    else Enabled(s, Run(w, acts[0])) && Acts(Apply(s, Run(w, acts[0])), w, acts[1..], t)
  }

  lemma ActsThen(s: State, w: nat, acts: seq<Act>, t: State, act: Act)
    requires Acts(s, w, acts, t) && Enabled(t, Run(w, act))
    ensures Acts(s, w, acts + [act], Apply(t, Run(w, act)))
    decreases |acts|
  {
    hide ParseType, Runnable;
    if acts == [] {
      assert Acts(Apply(t, Run(w, act)), w, [], Apply(t, Run(w, act)));
      assert [act][1..] == [];
    } else {
      ActsThen(Apply(s, Run(w, acts[0])), w, acts[1..], t, act);
      assert (acts + [act])[1..] == acts[1..] + [act];
    }
  }

  // ---- The handler -----------------------------------------------------------------

  class EventHandler {
    const repo: EventRepo
    var queue: seq<Event>
    var tokens: nat
    var isLeader: bool
    ghost var hist: seq<Trace>
    ghost var workers: seq<Worker>
    ghost var lost: nat

    constructor (repo: EventRepo, ghost hist: seq<Trace>)
      ensures this.repo == repo
      ensures View() == State(repo.rows, hist, [], [], 0, 0, false)
    {
      this.repo := repo;
      this.hist := hist;
      queue, workers, tokens, lost, isLeader := [], [], 0, 0, false;
    }

    ghost function View(): State
      reads this, repo
    {
      State(repo.rows, hist, queue, workers, tokens, lost, isLeader)
    }

    // answer is None when the leader cannot be found out.
    method IsNewLeader(answer: Option<bool>, resetOk: bool) returns (err: bool)
      requires queue == []
      modifies this`isLeader, repo
      ensures View() == if answer.Some? then Apply(old(View()), Elect(answer.value, resetOk)) else old(View())
      ensures err <==> answer == None || (answer != Some(old(isLeader)) && !resetOk)
    {
      if answer == None { return true; }
      err := false;
      if answer.value != isLeader {
        if resetOk { repo.EventsReset(); } else { err := true; }
        isLeader := answer.value;
      }
    }

    // One tick, up to the dispatch loop: the leader check and then, for a leader whose
    // check went well, the fetch. A panic in the fetch ends the process.
    method Tick(answer: Option<bool>, resetOk: bool, periods: Periods, now: int) returns (panics: bool)
      requires queue == []
      modifies this, repo
      ensures var checked := if answer.Some? then Apply(old(View()), Elect(answer.value, resetOk)) else old(View());
              var err := answer == None || (answer != Some(old(isLeader)) && !resetOk);
              var fetches := !err && checked.leader;
              (panics <==> fetches && FetchPanics(checked.rows))
              && View() == if fetches && !panics then Apply(checked, Fetch(PausedTeams(periods, now))) else checked
    {
      hide FetchPanics;
      var err := IsNewLeader(answer, resetOk);
      if err || !isLeader { return false; }
      var dispatchable := repo.DispatchableEventsGet();
      if dispatchable == None { return true; }
      queue := OmitAirflowEventsIfUpgradesPaused(dispatchable.value, periods, now);
      panics := false;
    }

    // The next turn of the dispatch loop, once the channel has room.
    method DispatchNextEvent()
      requires queue != [] && tokens < SLOTS && queue[0].id < |hist|
      modifies this
      ensures View() == Apply(old(View()), Dispatch)
    {
      var event := queue[0];
      queue := queue[1..];
      tokens := tokens + 1;
      if ParseType(event.typ).Some? && ParseDuration(event.deadline).Some? {
        workers := workers + [Worker(event, Starting)];
        hist := hist[event.id := hist[event.id].(starts := hist[event.id].starts + 1)];
      } else {
        lost := lost + 1;
      }
    }

    ghost predicate HasWorker(w: nat, ev: Event, phase: Phase)
      reads this, repo
    {
      && w < |workers| && workers[w] == Worker(ev, phase)
      && ev.id < |repo.rows| == |hist| && tokens > 0
    }

    ghost method Goto(w: nat, phase: Phase)
      requires w < |workers|
      modifies this`workers
      ensures workers == old(workers)[w := old(workers)[w].(phase := phase)]
    {
      workers := workers[w := workers[w].(phase := phase)];
    }

    // The action of one event, ending in at most one registration.
    method Perform(ghost w: nat, ev: Event, world: World)
      requires HasWorker(w, ev, Working)
      requires ParseType(ev.typ).Some? && WorkAllows(ParseType(ev.typ).value, world.workOk, world.spawn)
      modifies this`hist, this`workers, repo
      ensures Enabled(old(View()), Run(w, Work(world.workOk, world.spawn)))
      ensures View() == Apply(old(View()), Run(w, Work(world.workOk, world.spawn)))
      ensures HasWorker(w, ev, if world.workOk then Completing else Failing)
    {
      hide ParseType, TypeName;
      ghost var root := hist[ev.id].root;
      if world.spawn {
        var child := SpawnOf(ParseType(ev.typ).value).value;
        hist := hist[ev.id := hist[ev.id].(spawned := hist[ev.id].spawned + 1)] + [Trace(0, 0, root)];
        assert repo.rows[ev.id := repo.rows[ev.id]] == repo.rows;
        repo.EventCreate(ev.owner, TypeName(child), DurationString(DeadlineMinutes(child)));
      } else {
        assert repo.rows[ev.id := repo.rows[ev.id]] == repo.rows;
      }
      Goto(w, if world.workOk then Completing else Failing);
    }

    // One status write, which is one act of the worker, after those it has taken.
    method SetStatus(ghost w: nat, ev: Event, status: Status, ok: bool, ghost act: Act, ghost s0: State,
                     ghost acts: seq<Act>)
      requires w < |workers| && HasWorker(w, ev, workers[w].phase)
      requires ActEnabled(workers[w], act) && !act.Release? && !act.Work?
      requires NextRow(repo.rows[ev.id], act) ==
               if ok then repo.rows[ev.id].(status := status) else repo.rows[ev.id]
      requires Acts(s0, w, acts, View())
      modifies this`workers, repo
      ensures Enabled(old(View()), Run(w, act)) && View() == Apply(old(View()), Run(w, act))
      ensures Acts(s0, w, acts + [act], View())
      ensures HasWorker(w, ev, NextPhase(act))
    {
      hide ParseType, Runnable, Acts;
      ghost var before := View();
      assert repo.rows[ev.id := repo.rows[ev.id]] == repo.rows;
      if ok { repo.EventSetStatus(ev.id, status); }
      Goto(w, NextPhase(act));
      ActsThen(s0, w, acts, before, act);
    }

    // processWork: decode, mark, act, complete. What it writes is the attempt's acts.
    method ProcessWork(ghost w: nat, ev: Event, world: World) returns (err: bool)
      requires HasWorker(w, ev, Starting)
      requires ParseType(ev.typ).Some? && WorkAllows(ParseType(ev.typ).value, world.workOk, world.spawn)
      modifies this`hist, this`workers, repo
      ensures Acts(old(View()), w, AttemptActs(world), View())
      ensures err <==> AttemptFails(world)
      ensures HasWorker(w, ev, if err then Failing else Done) && tokens == old(tokens)
    {
      hide ParseType, Runnable, Apply, View, WorkAllows, Acts;
      ghost var s0 := View();
      if world.decodes {
        MarkProcessing(w, ev, world.markOk);
        if !world.markOk { return true; }
        err := PerformAndComplete(w, ev, world, s0);
      } else {
        MarkUndecodable(w, ev, world.failedOk);
        err := true;
      }
    }

    method MarkProcessing(ghost w: nat, ev: Event, ok: bool)
      requires HasWorker(w, ev, Starting)
      modifies this`workers, repo
      ensures Acts(old(View()), w, [Mark(ok)], View())
      ensures HasWorker(w, ev, if ok then Working else Failing)
    {
      hide ParseType, Runnable, Apply, View;
      SetStatus(w, ev, Processing, ok, Mark(ok), View(), []);
      assert [] + [Mark(ok)] == [Mark(ok)];
    }

    method MarkUndecodable(ghost w: nat, ev: Event, ok: bool)
      requires HasWorker(w, ev, Starting)
      modifies this`workers, repo
      ensures Acts(old(View()), w, [DecodeFail(ok)], View())
      ensures HasWorker(w, ev, Failing)
    {
      hide ParseType, Runnable, Apply, View;
      SetStatus(w, ev, Failed, ok, DecodeFail(ok), View(), []);
      assert [] + [DecodeFail(ok)] == [DecodeFail(ok)];
    }

    // The rest of it, once the event is marked.
    method PerformAndComplete(ghost w: nat, ev: Event, world: World, ghost s0: State) returns (err: bool)
      requires HasWorker(w, ev, Working) && world.decodes && world.markOk
      requires ParseType(ev.typ).Some? && WorkAllows(ParseType(ev.typ).value, world.workOk, world.spawn)
      requires Acts(s0, w, [Mark(true)], View())
      modifies this`hist, this`workers, repo
      ensures Acts(s0, w, AttemptActs(world), View())
      ensures err <==> AttemptFails(world)
      ensures HasWorker(w, ev, if err then Failing else Done) && tokens == old(tokens)
    {
      hide ParseType, Runnable, Apply, View, Acts;
      ghost var s1 := View();
      Perform(w, ev, world);
      ActsThen(s0, w, [Mark(true)], s1, Work(world.workOk, world.spawn));
      assert [Mark(true)] + [Work(world.workOk, world.spawn)] == [Mark(true), Work(world.workOk, world.spawn)];
      if !world.workOk { return true; }
      SetStatus(w, ev, Completed, world.completeOk, Complete(world.completeOk), s0,
                [Mark(true), Work(true, world.spawn)]);
      assert [Mark(true), Work(true, world.spawn)] + [Complete(world.completeOk)] == AttemptActs(world);
      return !world.completeOk;
    }

    method CountRetry(ghost w: nat, ev: Event, ok: bool)
      requires HasWorker(w, ev, Failing) && ev.retryCount <= MAX_RETRIES
      modifies this`workers, repo
      ensures Enabled(old(View()), Run(w, Count(ok))) && View() == Apply(old(View()), Run(w, Count(ok)))
      ensures HasWorker(w, ev, Counted)
    {
      hide ParseType, Runnable;
      assert repo.rows[ev.id := repo.rows[ev.id]] == repo.rows;
      if ok { repo.EventIncrementRetryCount(ev.id); }
      Goto(w, Counted);
    }

    // The retry bookkeeping after a failed attempt.
    method KeepBooks(ghost w: nat, ev: Event, world: World)
      requires HasWorker(w, ev, Failing) && AttemptFails(world)
      modifies this`workers, repo
      ensures Acts(old(View()), w, BookkeepingActs(ev, world), View())
      ensures HasWorker(w, ev, Done)
    {
      hide ParseType, Runnable, Apply, View;
      ghost var s0 := View();
      if ev.retryCount > MAX_RETRIES {
        SetStatus(w, ev, Failed, world.giveUpOk, GiveUp(world.giveUpOk), s0, []);
        assert [] + [GiveUp(world.giveUpOk)] == BookkeepingActs(ev, world);
      } else {
        CountRetry(w, ev, world.countOk);
        ActsThen(s0, w, [], s0, Count(world.countOk));
        assert [] + [Count(world.countOk)] == [Count(world.countOk)];
        SetStatus(w, ev, if world.late then DeadlineReached else Pending, world.requeueOk,
                  Requeue(world.late, world.requeueOk), s0, [Count(world.countOk)]);
        assert [Count(world.countOk)] + [Requeue(world.late, world.requeueOk)] == BookkeepingActs(ev, world);
      }
    }

    method ReleaseSlot(ghost w: nat, ev: Event)
      requires HasWorker(w, ev, Done)
      modifies this`workers, this`tokens
      ensures Enabled(old(View()), Run(w, Release)) && View() == Apply(old(View()), Run(w, Release))
    {
      hide ParseType, Runnable;
      assert repo.rows[ev.id := repo.rows[ev.id]] == repo.rows;
      tokens := tokens - 1;
      Goto(w, Released);
    }

    // The body of a dispatched worker, from the action to giving back its slot.
    method HandleEvent(ghost w: nat, ev: Event, world: World) returns (ghost attempted: State, ghost booked: State)
      requires HasWorker(w, ev, Starting)
      requires ParseType(ev.typ).Some? && WorkAllows(ParseType(ev.typ).value, world.workOk, world.spawn)
      modifies this`hist, this`workers, this`tokens, repo
      ensures Acts(old(View()), w, AttemptActs(world), attempted)
      ensures Acts(attempted, w, BookkeepingActs(ev, world), booked)
      ensures Enabled(booked, Run(w, Release)) && View() == Apply(booked, Run(w, Release))
    {
      hide ParseType, Runnable, WorkAllows, AttemptActs, Apply, View, Enabled;
      var err := ProcessWork(w, ev, world);
      attempted := View();
      if err { KeepBooks(w, ev, world); }
      booked := View();
      ReleaseSlot(w, ev);
    }
  }
}
