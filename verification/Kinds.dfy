// The twelve types by name: which of them exclude each other, and which a pause holds back.
module Kinds {
  import opened Wrappers
  import opened Events

  lemma TypeNamesAre()
    ensures TypeName(CreateTeam) == "create:team" && TypeName(UpdateTeam) == "update:team"
    ensures TypeName(DeleteTeam) == "delete:team"
    ensures TypeName(CreateAirflow) == "create:airflow" && TypeName(UpdateAirflow) == "update:airflow"
    ensures TypeName(DeleteAirflow) == "delete:airflow"
    ensures TypeName(CreateUserGSM) == "create:usergsm" && TypeName(DeleteUserGSM) == "delete:usergsm"
    ensures TypeName(HelmRolloutAirflow) == "rolloutAirflow:helm"
    ensures TypeName(HelmRollbackAirflow) == "rollbackAirflow:helm"
    ensures TypeName(HelmUninstallAirflow) == "uninstallAirflow:helm"
    ensures TypeName(DeleteSchedulerPods) == "restart:airflowscheduler"
  {
  }

  // ---- Who excludes whom ----------------------------------------------------------------

  // The name is the action, a colon and the resource.
  lemma Splits(typ: string, action: string, resource: string)
    requires typ == action + ":" + resource && ':' !in action && ':' !in resource
    ensures Resource(typ) == resource
  {
    ResourceOf(action, resource, "");
  }

  lemma TeamResources()
    ensures forall typ | typ in {"create:team", "update:team", "delete:team"} :: Resource(typ) == "team"
  {
    hide Resource;
    Splits("create:team", "create", "team");
    Splits("update:team", "update", "team");
    Splits("delete:team", "delete", "team");
  }

  lemma AirflowResources()
    ensures forall typ | typ in {"create:airflow", "update:airflow", "delete:airflow"} :: Resource(typ) == "airflow"
  {
    hide Resource;
    Splits("create:airflow", "create", "airflow");
    Splits("update:airflow", "update", "airflow");
    Splits("delete:airflow", "delete", "airflow");
  }

  lemma UserResources()
    ensures forall typ | typ in {"create:usergsm", "delete:usergsm"} :: Resource(typ) == "usergsm"
  {
    hide Resource;
    Splits("create:usergsm", "create", "usergsm");
    Splits("delete:usergsm", "delete", "usergsm");
  }

  lemma HelmResources()
    ensures forall typ | typ in {"rolloutAirflow:helm", "rollbackAirflow:helm", "uninstallAirflow:helm"} ::
              Resource(typ) == "helm"
  {
    hide Resource;
    Splits("rolloutAirflow:helm", "rolloutAirflow", "helm");
    Splits("rollbackAirflow:helm", "rollbackAirflow", "helm");
    Splits("uninstallAirflow:helm", "uninstallAirflow", "helm");
  }

  lemma SchedulerResources()
    ensures forall typ | typ in {"restart:airflowscheduler"} :: Resource(typ) == "airflowscheduler"
  {
    hide Resource;
    Splits("restart:airflowscheduler", "restart", "airflowscheduler");
  }

  // Each type is in the group of its resource, and in no other.
  lemma GroupExactly(t: EventType)
    ensures var typ := TypeName(t);
            && (typ in {"create:team", "update:team", "delete:team"} <==> Resource(typ) == "team")
            && (typ in {"create:airflow", "update:airflow", "delete:airflow"} <==> Resource(typ) == "airflow")
            && (typ in {"create:usergsm", "delete:usergsm"} <==> Resource(typ) == "usergsm")
            && (typ in {"rolloutAirflow:helm", "rollbackAirflow:helm", "uninstallAirflow:helm"}
                <==> Resource(typ) == "helm")
            && (typ == "restart:airflowscheduler" <==> Resource(typ) == "airflowscheduler")
            && Resource(typ) in {"team", "airflow", "usergsm", "helm", "airflowscheduler"}
  {
    TeamResources();
    AirflowResources();
    UserResources();
    HelmResources();
    SchedulerResources();
    TypeNamesAre();
    hide Resource, TypeName;
    assert |"team"| == 4 && |"airflow"| == 7 && |"usergsm"| == 7 && |"helm"| == 4 && |"airflowscheduler"| == 16;
    assert "team"[0] == 't' && "helm"[0] == 'h' && "airflow"[0] == 'a' && "usergsm"[0] == 'u';
    match t
    case _ =>
  }

  // Two registered events exclude each other exactly when they have one owner and their
  // types are of one group: the team's, its Airflow's, a user's secrets, Helm's, or the
  // scheduler's.
  lemma ClassesExactly(e: Event, f: Event, t: EventType, u: EventType)
    requires e.typ == TypeName(t) && f.typ == TypeName(u)
    ensures SameClass(e, f) <==>
            e.owner == f.owner
            && ((e.typ in {"create:team", "update:team", "delete:team"}
                 && f.typ in {"create:team", "update:team", "delete:team"})
                || (e.typ in {"create:airflow", "update:airflow", "delete:airflow"}
                    && f.typ in {"create:airflow", "update:airflow", "delete:airflow"})
                || (e.typ in {"create:usergsm", "delete:usergsm"} && f.typ in {"create:usergsm", "delete:usergsm"})
                || (e.typ in {"rolloutAirflow:helm", "rollbackAirflow:helm", "uninstallAirflow:helm"}
                    && f.typ in {"rolloutAirflow:helm", "rollbackAirflow:helm", "uninstallAirflow:helm"})
                || (e.typ == "restart:airflowscheduler" && f.typ == "restart:airflowscheduler"))
  {
    GroupExactly(t);
    GroupExactly(u);
    hide Resource, TypeName;
  }

  // ---- What a pause holds back --------------------------------------------------------------

  lemma PausableExactly(typ: string)
    ensures Pausable(typ) <==>
            typ in {"create:airflow", "update:airflow", "rolloutAirflow:helm", "rollbackAirflow:helm"}
  {
  }

  // A fetch under pauses, on the names: of a paused team it has none of the four types, and
  // of whatever was chosen nothing else is missing.
  lemma FetchUnderPauses(rows: seq<Event>, paused: set<string>, e: Event)
    ensures e in OmitPaused(Fetchable(rows), paused) <==>
            e in Fetchable(rows)
            && !(e.owner in paused
                 && e.typ in {"create:airflow", "update:airflow", "rolloutAirflow:helm", "rollbackAirflow:helm"})
  {
    PausableExactly(e.typ);
    hide Pausable, Fetchable;
    OmitPausedExact(Fetchable(rows), paused, e);
  }
}
