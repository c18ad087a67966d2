// Which event an event registers, and that none is completed before it has registered its
// own.
module FollowUps {
  import opened Wrappers
  import opened Events
  import opened Decimal
  import opened Kinds
  import opened Dispatcher
  import opened Runs
  import opened Accounting
  import opened Descendants
  import opened Quiescence

  // ---- What a registration writes -----------------------------------------------------------

  lemma DurationsAre()
    ensures DurationString(5) == "5m0s" && DurationString(10) == "10m0s"
    ensures DurationString(15) == "15m0s" && DurationString(30) == "30m0s"
  {
    assert Digits(1) == "1" && Digits(3) == "3" && Digits(5) == "5";
    assert Digits(10) == Digits(1) + "0" && Digits(15) == Digits(1) + "5" && Digits(30) == Digits(3) + "0";
  }

  // The row of every type, by name, with its deadline.
  lemma NewRowIs(id: nat, owner: string, t: EventType)
    ensures var row := NewRow(id, owner, t);
            && row.id == id && row.owner == owner && row.status == New && row.retryCount == 0
            && row.deadline == (if t == CreateAirflow then "30m0s" else if t == UpdateAirflow then "15m0s"
                                else if t == HelmUninstallAirflow then "10m0s" else "5m0s")
            && row.typ == (match t
                           case CreateTeam => "create:team"
                           case UpdateTeam => "update:team"
                           case DeleteTeam => "delete:team"
                           case CreateAirflow => "create:airflow"
                           case UpdateAirflow => "update:airflow"
                           case DeleteAirflow => "delete:airflow"
                           case CreateUserGSM => "create:usergsm"
                           case DeleteUserGSM => "delete:usergsm"
                           case HelmRolloutAirflow => "rolloutAirflow:helm"
                           case HelmRollbackAirflow => "rollbackAirflow:helm"
                           case HelmUninstallAirflow => "uninstallAirflow:helm"
                           case DeleteSchedulerPods => "restart:airflowscheduler")
  {
    TypeNamesAre();
    DurationsAre();
    hide TypeName, DurationString;
  }

  // What the API registers, and what the administrator may set by hand.
  lemma FromOutside(s: State, owner: string, t: EventType, id: nat, status: Status)
    ensures Apply(s, Register(owner, t)) ==
            s.(rows := s.rows + [NewRow(|s.rows|, owner, t)], hist := s.hist + [Trace(0, 0, |s.rows|)])
    ensures Enabled(s, Admin(id, status)) <==> id < |s.rows| && status in {New, ManualFailed}
  {
    hide NewRow;
  }

  // ---- What an action registers ----------------------------------------------------------------

  lemma Follows(t: EventType, ok: bool)
    requires WorkAllows(t, ok, true)
    ensures (t == UpdateTeam && ok && SpawnOf(t) == Some(UpdateAirflow))
            || (t == DeleteTeam && ok && SpawnOf(t) == Some(DeleteAirflow))
            || (t in {CreateAirflow, UpdateAirflow} && ok && SpawnOf(t) == Some(HelmRolloutAirflow))
            || (t == DeleteAirflow && ok && SpawnOf(t) == Some(HelmUninstallAirflow))
            || (t == HelmRolloutAirflow && !ok && SpawnOf(t) == Some(HelmRollbackAirflow))
  {
  }

  // The follow-up of a worker that registers one: for the same owner, new, and of the type
  // and deadline that its cause calls for. Only a rollout registers when it fails.
  lemma FollowUp(s: State, w: nat, ok: bool)
    requires Wf(s) && Enabled(s, Run(w, Work(ok, true)))
    ensures var t, cause := Apply(s, Run(w, Work(ok, true))), s.workers[w].ev;
            |t.rows| == |s.rows| + 1
            && var row := t.rows[|s.rows|];
               && row.id == |s.rows| && row.owner == cause.owner && row.status == New && row.retryCount == 0
               && ((cause.typ == "update:team" && ok && row.typ == "update:airflow" && row.deadline == "15m0s")
                   || (cause.typ == "delete:team" && ok && row.typ == "delete:airflow" && row.deadline == "5m0s")
                   || (cause.typ in {"create:airflow", "update:airflow"} && ok
                       && row.typ == "rolloutAirflow:helm" && row.deadline == "5m0s")
                   || (cause.typ == "delete:airflow" && ok
                       && row.typ == "uninstallAirflow:helm" && row.deadline == "10m0s")
                   || (cause.typ == "rolloutAirflow:helm" && !ok
                       && row.typ == "rollbackAirflow:helm" && row.deadline == "5m0s"))
    ensures var t := Apply(s, Run(w, Work(ok, true)));
            s.workers[w].ev.id < |s.hist| && |t.hist| == |s.hist| + 1
            && t.hist[|s.hist|].root == s.hist[s.workers[w].ev.id].root
  {
    var cause := s.workers[w].ev;
    var u := ParseType(cause.typ).value;
    assert cause.typ == TypeName(u);
    WorkInParts(s, w, Work(ok, true));
    TypeNamesAre();
    Follows(u, ok);
    NewRowIs(|s.rows|, cause.owner, SpawnOf(u).value);
    hide ParseType, TypeName, NewRow, Runnable, Apply, SpawnOf, WorkAllows, DeadlineMinutes;
  }

  // A success without a registration is one of an event that needs none.
  lemma NoFollowUp(s: State, w: nat)
    requires Enabled(s, Run(w, Work(true, false)))
    ensures s.workers[w].ev.typ !in {"delete:team", "create:airflow", "update:airflow", "delete:airflow"}
  {
  }

  // ---- No completion without its follow-up --------------------------------------------------------

  predicate NeedsFollowUp(typ: string) {
    typ in {"delete:team", "create:airflow", "update:airflow", "delete:airflow"}
  }

  // A later row of the same owner and the same request that is what row i calls for.
  predicate IsFollowUp(s: State, i: nat, j: nat) {
    && i < j < |s.rows| && j < |s.hist| && s.rows[j].owner == s.rows[i].owner && s.hist[j].root == s.hist[i].root
    && ((s.rows[i].typ == "delete:team" && s.rows[j].typ == "delete:airflow")
        || (s.rows[i].typ in {"create:airflow", "update:airflow"} && s.rows[j].typ == "rolloutAirflow:helm")
        || (s.rows[i].typ == "delete:airflow" && s.rows[j].typ == "uninstallAirflow:helm"))
  }

  ghost predicate HasFollowUp(s: State, i: nat) {
    exists j: nat :: IsFollowUp(s, i, j)
  }

  // Whatever is completed, or done and about to be, has registered its follow-up.
  ghost predicate Followed(s: State) {
    && (forall i | 0 <= i < |s.rows| && NeedsFollowUp(s.rows[i].typ) && s.rows[i].status == Completed ::
          HasFollowUp(s, i))
    && (forall a | 0 <= a < |s.workers| && s.workers[a].phase == Completing && NeedsFollowUp(s.workers[a].ev.typ) ::
          HasFollowUp(s, s.workers[a].ev.id))
  }

  lemma FollowUpStays(s: State, t: State, i: nat)
    requires HasFollowUp(s, i) && Extends(s.rows, t.rows) && |s.hist| <= |t.hist|
    requires forall j | 0 <= j < |s.hist| :: t.hist[j].root == s.hist[j].root
    ensures HasFollowUp(t, i)
  {
    var j: nat :| IsFollowUp(s, i, j);
    assert i < j < |s.rows| <= |t.rows|;
    assert SameKind(t.rows[i], s.rows[i]) && SameKind(t.rows[j], s.rows[j]);
    assert IsFollowUp(t, i, j);
  }

  // No step changes which request a row descends from.
  lemma RootsStay(s: State, step: Step)
    requires Wf(s) && Enabled(s, step)
    ensures |s.hist| <= |Apply(s, step).hist|
    ensures forall j | 0 <= j < |s.hist| :: Apply(s, step).hist[j].root == s.hist[j].root
  {
    hide ParseType, Runnable, FetchPanics;
    if step.Run? {
      RunActHist(s, step.w, step.act);
      assert |Apply(s, step).rows| >= |s.rows| by { ApplyExtends(s, step); }
      hide Apply;
    }
  }

  lemma FollowedWork(s: State, w: nat, act: Act)
    requires Wf(s) && Followed(s) && Enabled(s, Run(w, act)) && act.Work? && act.ok
    requires NeedsFollowUp(s.workers[w].ev.typ)
    ensures HasFollowUp(Apply(s, Run(w, act)), s.workers[w].ev.id)
  {
    if !act.spawn { NoFollowUp(s, w); }
    var t, id := Apply(s, Run(w, act)), s.workers[w].ev.id;
    FollowUp(s, w, true);
    ApplyExtends(s, Run(w, act));
    RootsStay(s, Run(w, act));
    hide Apply, ParseType, Runnable;
    assert SameKind(s.rows[id], s.workers[w].ev) && SameKind(t.rows[id], s.rows[id]);
    assert IsFollowUp(t, id, |s.rows|);
  }

  lemma FollowedRun(s: State, w: nat, act: Act)
    requires Wf(s) && Followed(s) && Enabled(s, Run(w, act))
    ensures Followed(Apply(s, Run(w, act)))
  {
    var t := Apply(s, Run(w, act));
    RunActMoves(s, w, act);
    RunActRows(s, w, act);
    ApplyExtends(s, Run(w, act));
    RootsStay(s, Run(w, act));
    assert t.workers[w].phase == NextPhase(act);
    assert act.Complete? ==> s.workers[w].phase == Completing;
    hide Apply, ParseType, Runnable, NeedsFollowUp, HasFollowUp;
    if act.Work? && act.ok && NeedsFollowUp(s.workers[w].ev.typ) { FollowedWork(s, w, act); }
    var id := s.workers[w].ev.id;
    assert SameKind(s.rows[id], s.workers[w].ev);
    forall i | 0 <= i < |t.rows| && NeedsFollowUp(t.rows[i].typ) && t.rows[i].status == Completed
      ensures HasFollowUp(t, i)
    {
      assert i < |s.rows| && SameKind(t.rows[i], s.rows[i]);
      FollowUpStays(s, t, i);
    }
    forall a | 0 <= a < |t.workers| && t.workers[a].phase == Completing && NeedsFollowUp(t.workers[a].ev.typ)
      ensures HasFollowUp(t, t.workers[a].ev.id)
    {
      if a != w { FollowUpStays(s, t, s.workers[a].ev.id); }
    }
  }

  // Any other step completes nothing and moves no worker.
  lemma OthersComplete(s: State, step: Step)
    requires Wf(s) && Enabled(s, step) && !step.Run?
    ensures var t := Apply(s, step);
            && (forall i | 0 <= i < |t.rows| && t.rows[i].status == Completed ::
                  i < |s.rows| && s.rows[i].status == Completed)
            && (forall a | 0 <= a < |t.workers| && t.workers[a].phase == Completing ::
                  a < |s.workers| && t.workers[a] == s.workers[a])
  {
    hide ParseType, Runnable, FetchPanics, Wf;
  }

  lemma FollowedStep(s: State, step: Step)
    requires Wf(s) && Followed(s) && Enabled(s, step)
    ensures Followed(Apply(s, step))
  {
    if step.Run? {
      FollowedRun(s, step.w, step.act);
    } else {
      var t := Apply(s, step);
      ApplyExtends(s, step);
      RootsStay(s, step);
      OthersComplete(s, step);
      hide Apply, Enabled, ParseType, Runnable, NeedsFollowUp, HasFollowUp;
      forall i | 0 <= i < |t.rows| && NeedsFollowUp(t.rows[i].typ) && t.rows[i].status == Completed
        ensures HasFollowUp(t, i)
      {
        assert SameKind(t.rows[i], s.rows[i]);
        FollowUpStays(s, t, i);
      }
      forall a | 0 <= a < |t.workers| && t.workers[a].phase == Completing && NeedsFollowUp(t.workers[a].ev.typ)
        ensures HasFollowUp(t, t.workers[a].ev.id)
      {
        FollowUpStays(s, t, s.workers[a].ev.id);
      }
    }
  }

  lemma {:induction false} FollowedAlways(r: Regime, s: State, steps: seq<Step>, t: State)
    requires Wf(s) && Followed(s) && Steps(r, s, steps, t)
    ensures Followed(t)
    decreases |steps|
  {
    hide Wf, Followed, Enabled, Apply, Permits;
    if steps != [] {
      WfStep(s, steps[0]);
      FollowedStep(s, steps[0]);
      FollowedAlways(r, Apply(s, steps[0]), steps[1..], t);
    }
  }

  // Over every run, with nothing promised, from a table without completed rows: a completed
  // deletion of a team has a deletion of its Airflow for the same owner, a completed deletion
  // of an Airflow has an uninstall, and a completed creation or update a rollout.
  lemma CompletedHasFollowUp(r: Regime, s: State, steps: seq<Step>, t: State, i: nat) returns (j: nat)
    requires Starts(s) && (forall k | 0 <= k < |s.rows| :: s.rows[k].status != Completed) && Steps(r, s, steps, t)
    requires i < |t.rows| && t.rows[i].status == Completed
    requires t.rows[i].typ in {"delete:team", "create:airflow", "update:airflow", "delete:airflow"}
    ensures i < j < |t.rows| && j < |t.hist| && t.rows[j].owner == t.rows[i].owner
    ensures t.hist[j].root == t.hist[i].root
    ensures t.rows[i].typ == "delete:team" ==> t.rows[j].typ == "delete:airflow"
    ensures t.rows[i].typ == "delete:airflow" ==> t.rows[j].typ == "uninstallAirflow:helm"
    ensures t.rows[i].typ in {"create:airflow", "update:airflow"} ==> t.rows[j].typ == "rolloutAirflow:helm"
  {
    hide Steps, ParseType, Runnable;
    assert Followed(s);
    FollowedAlways(r, s, steps, t);
    assert HasFollowUp(t, i);
    j :| IsFollowUp(t, i, j);
  }

  lemma RequestedFollowed(reqs: seq<(string, EventType)>)
    ensures Followed(Apply(Requested(reqs), Elect(true, true)))
  {
    hide ParseType, Runnable, TypeName, DurationString;
    var s := Requested(reqs);
    forall i | 0 <= i < |s.rows| ensures ResetRows(s.rows)[i].status != Completed { ResetRowsAt(s.rows, i); }
  }

  lemma GoodIsWf(s: State)
    requires Good(s)
    ensures Wf(s)
  {
    hide ParseType, Runnable;
  }

  lemma FollowedMeans(s: State, i: nat)
    requires Followed(s) && i < |s.rows| && s.rows[i].status == Completed && NeedsFollowUp(s.rows[i].typ)
    ensures HasFollowUp(s, i)
  {
  }

  lemma RestFollowed(s: State, steps: seq<Step>, t: State, i: nat) returns (j: nat)
    requires Good(s) && Followed(s) && Steps(Closed, s, steps, t)
    requires forall step :: !(Enabled(t, step) && Permits(Closed, t, step))
    requires i < |t.rows| && t.rows[i].status == Completed && NeedsFollowUp(t.rows[i].typ)
    ensures IsFollowUp(t, i, j) && t.rows[j].status in {Completed, Failed, ManualFailed}
  {
    GoodIsWf(s);
    hide Steps, Good, Enabled, Permits, Wf, Followed, NeedsFollowUp, IsFollowUp;
    RestMeansEnded(s, steps, t);
    FollowedAlways(Closed, s, steps, t);
    FollowedMeans(t, i);
    j :| IsFollowUp(t, i, j);
    FollowUpIn(t, i, j);
  }

  lemma FollowUpIn(s: State, i: nat, j: nat)
    requires IsFollowUp(s, i, j)
    ensures i < j < |s.rows|
  {
  }

  // So when a leader left to itself has brought a list of requests to rest, each deletion of
  // a team that succeeded has a deletion of its Airflow that has ended, and each of those
  // that succeeded an uninstall that has.
  lemma RestHasFollowUps(reqs: seq<(string, EventType)>, steps: seq<Step>, t: State, i: nat) returns (j: nat)
    requires Steps(Closed, Apply(Requested(reqs), Elect(true, true)), steps, t)
    requires forall step :: !(Enabled(t, step) && Permits(Closed, t, step))
    requires i < |t.rows| && t.rows[i].status == Completed && t.rows[i].typ in {"delete:team", "delete:airflow"}
    ensures i < j < |t.rows| && j < |t.hist| && t.rows[j].owner == t.rows[i].owner
    ensures t.hist[j].root == t.hist[i].root
    ensures t.rows[j].typ == if t.rows[i].typ == "delete:team" then "delete:airflow" else "uninstallAirflow:helm"
    ensures t.rows[j].status in {Completed, Failed, ManualFailed}
  {
    RequestedIsGood(reqs);
    RequestedFollowed(reqs);
    assert Enabled(Requested(reqs), Elect(true, true));
    hide Steps, Good, Followed, Enabled, Permits, Apply, Requested;
    j := RestFollowed(Apply(Requested(reqs), Elect(true, true)), steps, t, i);
  }
}
