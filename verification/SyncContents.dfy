// What a committed sync stores, key by key, and what the flags are over every history.
module SyncContents {
  import opened Wrappers
  import opened Structs
  import opened TeamStore
  import opened Sync
  import opened SyncHistory
  import Typed = Values

  // ---- The four settings ----------------------------------------------------------------

  // A form stores its texts under their keys. An image or a tag that is left out stays.
  lemma StoresConfig(lists: Lists, before: seq<Row>, after: seq<Row>, op: Op)
    requires OnlyChart(before, "airflow") && OpStep(lists, before, after, op)
    requires Commits(lists, before, op) && op.req.repo != ""
    ensures Newest(after, op.team, "airflow", "dags.gitSync.repo") == Some(op.req.repo)
    ensures op.req.branch != "" ==> Newest(after, op.team, "airflow", "dags.gitSync.branch") == Some(op.req.branch)
    ensures Newest(after, op.team, "airflow", "images.airflow.repository") ==
            if op.req.image != "" then Some(op.req.image)
            else Newest(before, op.team, "airflow", "images.airflow.repository")
    ensures Newest(after, op.team, "airflow", "images.airflow.tag") ==
            if op.req.tag != "" then Some(op.req.tag) else Newest(before, op.team, "airflow", "images.airflow.tag")
  {
    assert op.Sync?;
    ConfigKeysApart();
    assert Asked(op.req, BRANCH) == op.req.branch;
    hide Commits, OpStep, OnlyChart, Newest;
    SettingStep(lists, before, after, op, op.team, REPO);
    SettingStep(lists, before, after, op, op.team, BRANCH);
    SettingStep(lists, before, after, op, op.team, IMAGE);
    SettingStep(lists, before, after, op, op.team, TAG);
  }

  // A blank branch on the form is stored as main.
  lemma BlankBranchIsMain(lists: Lists, before: seq<Row>, after: seq<Row>, op: Op)
    requires OnlyChart(before, "airflow") && OpStep(lists, before, after, op) && Commits(lists, before, op)
    requires exists repo, image, tag, access :: repo != "" && op.req == FormRequest(repo, "", image, tag, access)
    ensures Newest(after, op.team, "airflow", "dags.gitSync.branch") == Some("main")
  {
    hide Commits, OpStep, OnlyChart, Newest;
    StoresConfig(lists, before, after, op);
  }

  // ---- What is generated -------------------------------------------------------------------

  lemma GeneratedWritten(lists: Lists, v: AirflowValues, n: nat, i: nat)
    requires i < |GENERATED|
    ensures ChartValues(lists, AllFields(v)).Ok?
    ensures var text, key := AllFields(v)[i + 9].value, GENERATED[i];
            AllFields(v)[i + 9].tag == key && text.Text?
            && (if text.s == "" then key !in Written(lists, v, n)
                else key in Written(lists, v, n) && Written(lists, v, n)[key] == text.s)
  {
    FieldsApart(v);
    TextsWrite(lists, AllFields(v));
    GeneratedApart(i);
    SinglesKeys(v, n);
    assert AllFields(v)[i + 9].tag == GENERATED[i] && AllFields(v)[i + 9].value.Text?;
    hide AllFields, IsConfigKey, IsSingleKey;
    ChartValuesAt(lists, AllFields(v), i + 9);
  }

  // What was stored is replaced by the text, unless that is empty.
  function Replaced(text: string, was: Option<string>): Option<string> {
    if text == "" then was else Some(text)
  }

  lemma StoresGenerated(lists: Lists, before: seq<Row>, after: seq<Row>, op: Op, i: nat)
    requires OpStep(lists, before, after, op) && Commits(lists, before, op) && i < |GENERATED|
    ensures var v := Merged(before, op.team, op.req, op.made).value;
            var text := if i == 0 then v.env else if i == 1 then v.webEnv else if i == 5 then v.labels else v.account;
            Newest(after, op.team, "airflow", GENERATED[i]) ==
            Replaced(text, Newest(before, op.team, "airflow", GENERATED[i]))
  {
    SyncWrites(lists, before, after, op);
    var v := Merged(before, op.team, op.req, op.made).value;
    GeneratedWritten(lists, v, op.faults.singles, i);
    var text := if i == 0 then v.env else if i == 1 then v.webEnv else if i == 5 then v.labels else v.account;
    assert AllFields(v)[i + 9].value == Text(text);
    hide Written, Merged, Commits, Newest, AllFields;
  }

  // The six generated values, by name: the environments and labels as they were made, and
  // the team as the service account of all three parts.
  lemma StoresMade(lists: Lists, before: seq<Row>, after: seq<Row>, op: Op)
    requires OpStep(lists, before, after, op) && Commits(lists, before, op)
    ensures var made := op.made;
            && Newest(after, op.team, "airflow", "env") ==
               Replaced(made.env, Newest(before, op.team, "airflow", "env"))
            && Newest(after, op.team, "airflow", "workers.labels") ==
               Replaced(made.labels, Newest(before, op.team, "airflow", "workers.labels"))
    ensures forall key | key in {"webserver.serviceAccount.name", "scheduler.serviceAccount.name",
                                 "workers.serviceAccount.name"} ::
              Newest(after, op.team, "airflow", key) == Replaced(op.team, Newest(before, op.team, "airflow", key))
    ensures Newest(after, op.team, "airflow", "webserver.env") ==
            Replaced(Merged(before, op.team, op.req, op.made).value.webEnv,
                     Newest(before, op.team, "airflow", "webserver.env"))
  {
    var v := Merged(before, op.team, op.req, op.made).value;
    assert v.env == op.made.env && v.labels == op.made.labels && v.account == op.team;
    hide Merged, Commits, Newest, OpStep, Replaced;
    StoresGenerated(lists, before, after, op, 0);
    StoresGenerated(lists, before, after, op, 1);
    StoresGenerated(lists, before, after, op, 2);
    StoresGenerated(lists, before, after, op, 3);
    StoresGenerated(lists, before, after, op, 4);
    StoresGenerated(lists, before, after, op, 5);
  }

  // ---- The two flags ---------------------------------------------------------------------------

  // How far the single inserts have to get for a flag to be written.
  function InsertsBefore(key: string): nat {
    if key == "restrictEgress,omit" then 2 else 3
  }

  function AskedFlag(req: Request, key: string): bool {
    if key == "restrictEgress,omit" then req.egress else req.access
  }

  // Only the resync comes without a repo.
  predicate IsFormOrResync(req: Request) {
    req.repo == "" ==> req == RESYNC
  }

  lemma MergedFlags(rows: seq<Row>, team: string, req: Request, made: Made)
    requires Merged(rows, team, req, made).Ok?
    ensures var v := Merged(rows, team, req, made).value;
            && (req.repo != "" ==> v.config.egress == req.egress && v.config.access == req.access)
            && (req.repo == "" ==> Flag(rows, team, "restrictEgress,omit", req.egress) == Ok(v.config.egress)
                                   && Flag(rows, team, "apiAccess,omit", req.access) == Ok(v.config.access))
            && v.webEnv == made.webEnv(v.config.access)
  {
  }

  lemma FormFlagStep(lists: Lists, before: seq<Row>, after: seq<Row>, op: Op, key: string)
    requires OnlyChart(before, AIRFLOW) && OnlyChart(after, AIRFLOW) && OpStep(lists, before, after, op)
    requires Commits(lists, before, op) && op.req.repo != "" && key in {"restrictEgress,omit", "apiAccess,omit"}
    ensures Flag(after, op.team, key, false) ==
            if op.faults.singles > InsertsBefore(key) then Ok(AskedFlag(op.req, key))
            else Flag(before, op.team, key, false)
  {
    SyncWrites(lists, before, after, op);
    var v := Merged(before, op.team, op.req, op.made).value;
    SingleWritten(lists, v, op.faults.singles, key);
    SinglesKeys(v, op.faults.singles);
    AnywhereIsNewest(before, AIRFLOW, op.team, key);
    AnywhereIsNewest(after, AIRFLOW, op.team, key);
    ConfigKeysApart();
    MergedFlags(before, op.team, op.req, op.made);
    assert Typed.ParseBool(Typed.PrintBool(true)) == Some(true);
    assert Typed.ParseBool(Typed.PrintBool(false)) == Some(false);
    hide Written, Merged, Commits, Newest, NewestAnywhere, OnlyChart, Typed.ParseBool, Typed.PrintBool;
  }

  // One operation on a flag: a deletion clears it, a form that commits and gets that far sets
  // it to what was asked, and a resync leaves it.
  lemma AnyFlagStep(lists: Lists, before: seq<Row>, after: seq<Row>, op: Op, team: string, key: string)
    requires OpStep(lists, before, after, op) && OnlyChart(before, AIRFLOW)
    requires key in {"restrictEgress,omit", "apiAccess,omit"} && (op.Sync? ==> IsFormOrResync(op.req))
    ensures Flag(after, team, key, false) ==
            if op.team != team then Flag(before, team, key, false)
            else if op.Delete? then Ok(false)
            else if Commits(lists, before, op) && op.req.repo != "" && op.faults.singles > InsertsBefore(key) then
              Ok(AskedFlag(op.req, key))
            else Flag(before, team, key, false)
  {
    OnlyAirflowStays(lists, before, after, op);
    AnywhereIsNewest(before, AIRFLOW, team, key);
    AnywhereIsNewest(after, AIRFLOW, team, key);
    if op.Delete? {
      NewestOfDelete(before, op.team, AIRFLOW, team, AIRFLOW, key);
    } else {
      SyncWrites(lists, before, after, op);
      hide Written, Merged, Newest, NewestAnywhere, OnlyChart;
      if Commits(lists, before, op) && op.team == team {
        hide Commits;
        if op.req.repo == "" {
          FlagStep(lists, before, after, op, team, key);
        } else {
          FormFlagStep(lists, before, after, op, key);
        }
      }
    }
  }

  // The last flag that a form of the team set, since its chart was last deleted. Before the
  // history, what was stored.
  function LastFlag(lists: Lists, states: seq<seq<Row>>, ops: seq<Op>, n: nat, team: string, key: string)
    : Result<bool, SyncError>
    requires |states| == |ops| + 1 && n <= |ops|
  {
    if n == 0 then Flag(states[0], team, key, false)
    else
      var op := ops[n - 1];
      if op.team == team && op.Delete? then Ok(false)
      else if op.team == team && Commits(lists, states[n - 1], op) && op.req.repo != ""
              && op.faults.singles > InsertsBefore(key) then
        Ok(AskedFlag(op.req, key))
      else LastFlag(lists, states, ops, n - 1, team, key)
  }

  // Flags are sticky over every history too.
  lemma {:induction false} FlagsSticky(lists: Lists, states: seq<seq<Row>>, ops: seq<Op>, n: nat, team: string,
                                       key: string)
    requires IsHistory(lists, states, ops) && n <= |ops| && key in {"restrictEgress,omit", "apiAccess,omit"}
    requires forall i | 0 <= i < |ops| :: ops[i].Sync? ==> IsFormOrResync(ops[i].req)
    ensures Flag(states[n], team, key, false) == LastFlag(lists, states, ops, n, team, key)
  {
    hide Commits, Flag, OpStep, OnlyChart, IsFormOrResync, AskedFlag, InsertsBefore;
    if n > 0 {
      FlagsSticky(lists, states, ops, n - 1, team, key);
      OnlyAirflow(lists, states, ops, n - 1);
      AnyFlagStep(lists, states[n - 1], states[n], ops[n - 1], team, key);
    }
  }

  // And the webserver's environment is generated for the access last asked for: the form's
  // own, or at a resync the last one that was stored.
  lemma WebserverFollowsAccess(lists: Lists, states: seq<seq<Row>>, ops: seq<Op>, n: nat)
    requires IsHistory(lists, states, ops) && n < |ops| && Commits(lists, states[n], ops[n])
    requires forall i | 0 <= i < |ops| :: ops[i].Sync? ==> IsFormOrResync(ops[i].req)
    ensures var op := ops[n];
            var access := if op.req.repo != "" then Ok(op.req.access)
                          else LastFlag(lists, states, ops, n, op.team, "apiAccess,omit");
            access.Ok?
            && Newest(states[n + 1], op.team, "airflow", "webserver.env") ==
               Replaced(op.made.webEnv(access.value), Newest(states[n], op.team, "airflow", "webserver.env"))
  {
    var op := ops[n];
    assert OpStep(lists, states[n], states[n + 1], op) && Merged(states[n], op.team, op.req, op.made).Ok?;
    assert IsFormOrResync(op.req);
    FlagsSticky(lists, states, ops, n, op.team, "apiAccess,omit");
    hide Flag, OpStep, Newest, LastFlag, Replaced, Merged, IsHistory;
    StoresMade(lists, states[n], states[n + 1], op);
    MergedFlags(states[n], op.team, op.req, op.made);
  }

  // A form that completes stores both flags, as they print.
  lemma StoresFlags(lists: Lists, before: seq<Row>, after: seq<Row>, op: Op)
    requires OpStep(lists, before, after, op) && Commits(lists, before, op)
    requires op.req.repo != "" && op.faults.singles > 3
    ensures Newest(after, op.team, "airflow", "restrictEgress,omit") ==
            Some(if op.req.egress then "true" else "false")
    ensures Newest(after, op.team, "airflow", "apiAccess,omit") == Some(if op.req.access then "true" else "false")
  {
    SyncWrites(lists, before, after, op);
    var v := Merged(before, op.team, op.req, op.made).value;
    SingleWritten(lists, v, op.faults.singles, EGRESS);
    SingleWritten(lists, v, op.faults.singles, ACCESS);
    SinglesKeys(v, op.faults.singles);
    MergedFlags(before, op.team, op.req, op.made);
    hide Written, Merged, Commits, Newest;
  }

  // A key is generated exactly when none is stored, and a stored one is taken exactly when it
  // is Airflow's and not empty. Anything else is an error.
  lemma PasswordsAre(rows: seq<Row>, team: string, key: string, made: string)
    ensures NewestAnywhere(rows, team, key) == None ==> Password(rows, team, key, made) == Ok(made)
    ensures NewestAnywhere(rows, team, key).Some? ==>
              var row := NewestAnywhere(rows, team, key).value;
              (row.chart == "airflow" && row.value != "" ==> Password(rows, team, key, made) == Ok(row.value))
              && (row.chart != "airflow" || row.value == "" ==> Password(rows, team, key, made) == Err(BadKey))
  {
    hide NewestAnywhere;
  }

  // The keys that a sync has made are stored under their names.
  lemma StoresKeys(lists: Lists, before: seq<Row>, after: seq<Row>, op: Op)
    requires OpStep(lists, before, after, op) && Commits(lists, before, op) && op.faults.singles > 1
    requires NewestAnywhere(before, op.team, "fernetKey,omit") == None
    requires NewestAnywhere(before, op.team, "webserverSecretKey,omit") == None
    ensures Newest(after, op.team, "airflow", "fernetKey,omit") == Some(op.made.fernet)
    ensures Newest(after, op.team, "airflow", "webserverSecretKey,omit") == Some(op.made.secret)
  {
    SyncWrites(lists, before, after, op);
    var v := Merged(before, op.team, op.req, op.made).value;
    SingleWritten(lists, v, op.faults.singles, FERNET);
    SingleWritten(lists, v, op.faults.singles, SECRET);
    SinglesKeys(v, op.faults.singles);
    assert v.fernet == op.made.fernet && v.secret == op.made.secret;
    hide Written, Merged, Commits, Newest;
  }
}
