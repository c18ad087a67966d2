// What one attempt leaves in the table, and how many go on at once.
module Attempts {
  import opened Events
  import opened Dispatcher
  import opened Runs
  import opened Handler
  import opened Slots
  import opened BadRuns

  // ---- The row after an attempt and its bookkeeping ----------------------------------------------

  function RowAfter(e: Event, acts: seq<Act>): Event
    decreases |acts|
  {
    if acts == [] then e else RowAfter(NextRow(e, acts[0]), acts[1..])
  }

  lemma {:induction false} ActsRows(s: State, w: nat, acts: seq<Act>, t: State)
    requires Acts(s, w, acts, t) && w < |s.workers| && s.workers[w].ev.id < |s.rows|
    ensures w < |t.workers| && t.workers[w].ev == s.workers[w].ev && t.workers[w].ev.id < |t.rows|
    ensures t.rows[s.workers[w].ev.id] == RowAfter(s.rows[s.workers[w].ev.id], acts)
    decreases |acts|
  {
    if acts != [] {
      RunActRows(s, w, acts[0]);
      RunActMoves(s, w, acts[0]);
      hide Apply, Enabled, NextRow;
      ActsRows(Apply(s, Run(w, acts[0])), w, acts[1..], t);
    }
  }

  lemma RowAfterTwo(e: Event, a: Act, b: Act)
    ensures RowAfter(e, []) == e
    ensures RowAfter(e, [a]) == NextRow(e, a)
    ensures RowAfter(e, [a, b]) == NextRow(NextRow(e, a), b)
  {
    assert [a, b][1..] == [b] && [b][1..] == [] && [a][1..] == [];
    assert RowAfter(NextRow(e, a), [b]) == RowAfter(NextRow(NextRow(e, a), b), []);
  }

  lemma RowAfterThree(e: Event, a: Act, b: Act, c: Act)
    ensures RowAfter(e, [a, b, c]) == NextRow(NextRow(NextRow(e, a), b), c)
  {
    assert [a, b, c][1..] == [b, c];
    RowAfterTwo(NextRow(e, a), b, c);
  }

  lemma AttemptRow(e: Event, world: World)
    ensures var after := RowAfter(e, AttemptActs(world));
            after == e.(status :=
              if !world.decodes then if world.failedOk then Failed else e.status
              else if !world.markOk then e.status
              else if world.workOk && world.completeOk then Completed
              else Processing)
  {
    RowAfterTwo(e, DecodeFail(world.failedOk), Release);
    RowAfterTwo(e, Mark(false), Release);
    RowAfterTwo(e, Mark(true), Work(false, world.spawn));
    RowAfterThree(e, Mark(true), Work(true, world.spawn), Complete(world.completeOk));
    hide RowAfter;
  }

  lemma BookedRow(e: Event, ev: Event, world: World)
    ensures RowAfter(e, BookkeepingActs(ev, world)) ==
            if world.decodes && world.markOk && world.workOk && world.completeOk then e
            else if ev.retryCount > 5 then if world.giveUpOk then e.(status := Failed) else e
            else
              e.(retryCount := e.retryCount + if world.countOk then 1 else 0,
                 status := if !world.requeueOk then e.status else if world.late then DeadlineReached else Pending)
  {
    RowAfterTwo(e, GiveUp(world.giveUpOk), Release);
    RowAfterTwo(e, Count(world.countOk), Requeue(world.late, world.requeueOk));
    hide RowAfter;
  }

  // An attempt without an error leaves the event completed. After one with an error the event
  // fails when it was fetched with more than five retries, and otherwise is counted and goes
  // back, as deadline_reached if the deadline has passed and as pending if not. What the
  // database refuses is missing; the failure written for a payload that does not decode is
  // overwritten.
  lemma HandledRow(s: State, w: nat, world: World, attempted: State, booked: State)
    requires w < |s.workers| && s.workers[w].ev.id < |s.rows|
    requires Acts(s, w, AttemptActs(world), attempted)
    requires Acts(attempted, w, BookkeepingActs(s.workers[w].ev, world), booked)
    ensures var ev, row := s.workers[w].ev, s.rows[s.workers[w].ev.id];
            var marked := if !world.decodes then if world.failedOk then Failed else row.status
                          else if world.markOk then Processing else row.status;
            ev.id < |booked.rows|
            && booked.rows[ev.id] ==
               if world.decodes && world.markOk && world.workOk && world.completeOk then row.(status := Completed)
               else if ev.retryCount > 5 then row.(status := if world.giveUpOk then Failed else marked)
               else
                 row.(retryCount := row.retryCount + if world.countOk then 1 else 0,
                      status := if !world.requeueOk then marked else if world.late then DeadlineReached else Pending)
  {
    var ev, row := s.workers[w].ev, s.rows[s.workers[w].ev.id];
    ActsRows(s, w, AttemptActs(world), attempted);
    ActsRows(attempted, w, BookkeepingActs(ev, world), booked);
    AttemptRow(row, world);
    BookedRow(attempted.rows[ev.id], ev, world);
    hide Acts, AttemptActs, BookkeepingActs, RowAfter;
  }

  // ---- Five at once -------------------------------------------------------------------------------

  lemma {:induction false} StartsMany(s: State, n: nat) returns (steps: seq<Step>, t: State)
    requires n <= |s.queue| && s.tokens + n <= 5
    requires forall k | 0 <= k < n :: Runnable(s.queue[k]) && s.queue[k].id < |s.hist|
    ensures Steps(Anything, s, steps, t) && |steps| == n
    ensures Live(t.workers) == Live(s.workers) + n && t.tokens == s.tokens + n && t.queue == s.queue[n..]
    decreases n
  {
    hide ParseType, Runnable;
    if n == 0 {
      steps, t := [], s;
    } else {
      var e, next := s.queue[0], Apply(s, Dispatch);
      assert Runnable(e);
      LiveAppend(s.workers, Worker(e, Starting));
      OneStep(s, Dispatch);
      hide Steps, Apply, Enabled;
      var rest;
      rest, t := StartsMany(next, n - 1);
      StepsThen(s, [Dispatch], next, rest, t);
      steps := [Dispatch] + rest;
    }
  }

  // Five workers can be alive at once, whenever five readable events are selected, and a
  // sixth event waits.
  lemma FiveAtOnce(s: State) returns (steps: seq<Step>, t: State)
    requires |s.queue| >= 5 && s.tokens == 0 && s.workers == []
    requires forall k | 0 <= k < 5 :: Runnable(s.queue[k]) && s.queue[k].id < |s.hist|
    ensures Steps(Anything, s, steps, t) && |steps| == 5
    ensures Live(t.workers) == 5 && !Enabled(t, Dispatch)
  {
    hide Steps, Runnable;
    steps, t := StartsMany(s, 5);
  }
}
