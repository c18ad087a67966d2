// From a sync to a rollout: what a team asked for is what Helm gets, and its secrets are
// not.
module Rollout {
  import opened Wrappers
  import opened Trees
  import opened Keys
  import opened Enrichers
  import opened Precedence
  import opened TeamStore
  import opened Sync
  import opened SyncHistory
  import Structs
  import Typed = Values

  // ---- What the keys mean to the chart --------------------------------------------------

  // The ten keys whose values reach the chart: four settings, then what is generated.
  function RowKey(i: nat): (key: string)
    requires i < 10
    ensures i < 4 ==> IsConfigKey(key)
  {
    if i == 0 then REPO else if i == 1 then BRANCH else if i == 2 then IMAGE else if i == 3 then TAG
    else GENERATED[i - 4]
  }

  function RowPath(i: nat): Path
    requires i < 10
  {
    if i == 0 then ["dags", "gitSync", "repo"]
    else if i == 1 then ["dags", "gitSync", "branch"]
    else if i == 2 then ["images", "airflow", "repository"]
    else if i == 3 then ["images", "airflow", "tag"]
    else if i == 4 then ["env"]
    else if i == 5 then ["webserver", "env"]
    else if i == 6 then ["webserver", "serviceAccount", "name"]
    else if i == 7 then ["scheduler", "serviceAccount", "name"]
    else if i == 8 then ["workers", "serviceAccount", "name"]
    else ["workers", "labels"]
  }

  predicate PlainSegment(s: string) {
    s != "" && '.' !in s && '\\' !in s
  }

  // Plain segments joined with dots split into themselves.
  lemma SplitPlain(path: Path)
    requires forall i | 0 <= i < |path| :: PlainSegment(path[i])
    ensures |path| == 1 ==> KeySplit(path[0]) == path
    ensures |path| == 2 ==> KeySplit(path[0] + "." + path[1]) == path
    ensures |path| == 3 ==> KeySplit(path[0] + "." + path[1] + "." + path[2]) == path
  {
    KeyRoundTrip(path);
    forall i | 0 <= i < |path| ensures Escape(path[i]) == path[i] {
      EscapePlain(path[i]);
    }
    hide KeySplit, Escape;
    if |path| == 2 {
      assert JoinKey(path) == path[0] + "." + JoinKey(path[1..]);
    } else if |path| == 3 {
      assert JoinKey(path) == path[0] + "." + JoinKey(path[1..]);
      assert JoinKey(path[1..]) == path[1] + "." + JoinKey(path[1..][1..]);
      assert JoinKey(path) == path[0] + "." + path[1] + "." + path[2];
    }
  }

  lemma RepoPath()
    ensures KeySplit(REPO) == ["dags", "gitSync", "repo"] && ',' !in REPO
  {
    hide KeySplit;
    SplitPlain(["dags", "gitSync", "repo"]);
    assert REPO == "dags" + "." + "gitSync" + "." + "repo";
  }

  lemma BranchPath()
    ensures KeySplit(BRANCH) == ["dags", "gitSync", "branch"] && ',' !in BRANCH
  {
    hide KeySplit;
    SplitPlain(["dags", "gitSync", "branch"]);
    assert BRANCH == "dags" + "." + "gitSync" + "." + "branch";
  }

  lemma ImagePath()
    ensures KeySplit(IMAGE) == ["images", "airflow", "repository"] && ',' !in IMAGE
  {
    hide KeySplit;
    SplitPlain(["images", "airflow", "repository"]);
    assert IMAGE == "images" + "." + "airflow" + "." + "repository";
  }

  lemma TagPath()
    ensures KeySplit(TAG) == ["images", "airflow", "tag"] && ',' !in TAG
  {
    hide KeySplit;
    SplitPlain(["images", "airflow", "tag"]);
    assert TAG == "images" + "." + "airflow" + "." + "tag";
  }

  lemma EnvPath()
    ensures KeySplit(GENERATED[0]) == ["env"] && ',' !in GENERATED[0]
  {
    hide KeySplit;
    SplitPlain(["env"]);
  }

  lemma WebserverEnvPath()
    ensures KeySplit(GENERATED[1]) == ["webserver", "env"] && ',' !in GENERATED[1]
  {
    hide KeySplit;
    SplitPlain(["webserver", "env"]);
    assert GENERATED[1] == "webserver" + "." + "env";
  }

  lemma AccountPath(head: string)
    requires PlainSegment(head)
    ensures KeySplit(head + ".serviceAccount.name") == [head, "serviceAccount", "name"]
  {
    AccountIsPlain();
    hide KeySplit, PlainSegment;
    SplitPlain([head, "serviceAccount", "name"]);
    assert head + ("." + "serviceAccount" + "." + "name") == head + "." + "serviceAccount" + "." + "name";
  }

  lemma AccountIsPlain()
    ensures PlainSegment("serviceAccount") && PlainSegment("name")
    ensures "." + "serviceAccount" + "." + "name" == ".serviceAccount.name"
  {
  }

  lemma WebserverAccountPath()
    ensures KeySplit(GENERATED[2]) == ["webserver", "serviceAccount", "name"] && ',' !in GENERATED[2]
  {
    hide KeySplit;
    AccountPath("webserver");
    assert GENERATED[2] == "webserver" + ".serviceAccount.name";
  }

  lemma SchedulerAccountPath()
    ensures KeySplit(GENERATED[3]) == ["scheduler", "serviceAccount", "name"] && ',' !in GENERATED[3]
  {
    hide KeySplit;
    AccountPath("scheduler");
    assert GENERATED[3] == "scheduler" + ".serviceAccount.name";
  }

  lemma WorkersAccountPath()
    ensures KeySplit(GENERATED[4]) == ["workers", "serviceAccount", "name"] && ',' !in GENERATED[4]
  {
    hide KeySplit;
    AccountPath("workers");
    assert GENERATED[4] == "workers" + ".serviceAccount.name";
  }

  lemma LabelsPath()
    ensures KeySplit(GENERATED[5]) == ["workers", "labels"] && ',' !in GENERATED[5]
  {
    hide KeySplit;
    SplitPlain(["workers", "labels"]);
    assert GENERATED[5] == "workers" + "." + "labels";
  }

  lemma RowKeySplits(i: nat)
    requires i < 10
    ensures KeySplit(RowKey(i)) == RowPath(i) && ',' !in RowKey(i)
  {
    hide KeySplit;
    if i == 0 { RepoPath(); }
    if i == 1 { BranchPath(); }
    if i == 2 { ImagePath(); }
    if i == 3 { TagPath(); }
    if i == 4 { EnvPath(); }
    if i == 5 { WebserverEnvPath(); }
    if i == 6 { WebserverAccountPath(); }
    if i == 7 { SchedulerAccountPath(); }
    if i == 8 { WorkersAccountPath(); }
    if i == 9 { LabelsPath(); }
  }

  // Where two of the paths part.
  function Fork(i: nat, j: nat): nat {
    if {i, j} == {0, 1} || {i, j} == {2, 3} then 2 else if {i, j} == {5, 6} || {i, j} == {8, 9} then 1 else 0
  }

  lemma ForkApart(p: Path, q: Path, n: nat)
    requires n < |p| && n < |q| && p[n] != q[n]
    ensures Incomparable(p, q)
  {
  }

  lemma RowPathsApart(i: nat, j: nat)
    requires i < 10 && j < 10 && i != j
    ensures Incomparable(RowPath(i), RowPath(j))
  {
    var n := Fork(i, j);
    assert n < |RowPath(i)| && n < |RowPath(j)|;
    assert RowPath(i)[n] != RowPath(j)[n];
    ForkApart(RowPath(i), RowPath(j), n);
  }

  // ---- Names and options -----------------------------------------------------------------

  lemma {:induction false} PartsOfPlain(key: string, part: string)
    requires ',' !in key
    ensures Parts(key, part) == [part + key]
    decreases |key|
  {
    if key == "" {
      assert part + key == part;
    } else {
      assert key[0] in key;
      PartsOfPlain(key[1..], part + [key[0]]);
      assert part + [key[0]] + key[1..] == part + key;
    }
  }

  lemma {:induction false} PartsOfOption(name: string, option: string, part: string)
    requires ',' !in name && ',' !in option
    ensures Parts(name + "," + option, part) == [part + name, option]
    decreases |name|
  {
    var key := name + "," + option;
    if name == "" {
      assert key[0] == ',' && key[1..] == option;
      PartsOfPlain(option, "");
      assert "" + option == option && part + name == part;
    } else {
      assert key[0] == name[0] && key[1..] == name[1..] + "," + option;
      PartsOfOption(name[1..], option, part + [name[0]]);
      assert part + [name[0]] + name[1..] == part + name;
    }
  }

  lemma OptionOmits(name: string)
    requires ',' !in name
    ensures Omitted(name + "," + OMIT)
  {
    PartsOfOption(name, OMIT, "");
  }

  lemma FernetOmitted()
    ensures Omitted(FERNET)
  {
    hide Omitted;
    OptionOmits("fernetKey");
    assert FERNET == "fernetKey" + "," + OMIT;
  }

  lemma SecretOmitted()
    ensures Omitted(SECRET)
  {
    hide Omitted;
    OptionOmits("webserverSecretKey");
    assert SECRET == "webserverSecretKey" + "," + OMIT;
  }

  lemma EgressOmitted()
    ensures Omitted(EGRESS)
  {
    hide Omitted;
    OptionOmits("restrictEgress");
    assert EGRESS == "restrictEgress" + "," + OMIT;
  }

  lemma AccessOmitted()
    ensures Omitted(ACCESS)
  {
    hide Omitted;
    OptionOmits("apiAccess");
    assert ACCESS == "apiAccess" + "," + OMIT;
  }

  // The two secrets and the two flags set nothing in the chart.
  lemma SecretsStayOut(store: Store, row: TeamRow)
    requires row.key in {"fernetKey,omit", "webserverSecretKey,omit", "restrictEgress,omit", "apiAccess,omit",
                         "fernetKey", "webserverSecretKey"}
    ensures TeamSetting(store, row) == Ok(None)
  {
    FernetOmitted();
    SecretOmitted();
    EgressOmitted();
    AccessOmitted();
    hide Omitted;
  }

  lemma NotUnset(i: nat)
    requires i < 10
    ensures RowKey(i) !in UNSET_KEYS
  {
    var key := RowKey(i);
    assert UNSET_KEYS[0][0] == 'f' && |UNSET_KEYS[1]| == 18 && UNSET_KEYS[1][0] == 'w';
    assert key[0] != 'f' && (key[0] == 'w' ==> |key| != 18);
  }

  // The others set their own path to what their text means.
  lemma RowSets(store: Store, i: nat, value: string)
    requires i < 10
    ensures TeamSetting(store, TeamRow(RowKey(i), value)) ==
            match Typed.ParseString(store.syntax, value)
            case Err(_) => Err(BadValue)
            case Ok(t) => Ok(Some(Setting(RowPath(i), t)))
  {
    RowKeySplits(i);
    NotUnset(i);
    PartsOfPlain(RowKey(i), "");
    assert "" + RowKey(i) == RowKey(i);
    hide RowKey, RowPath, KeySplit;
  }

  // ---- What a team's store can hold -----------------------------------------------------

  ghost predicate IsKnown(key: string) {
    IsSingleKey(key) || exists i :: 0 <= i < 10 && key == RowKey(i)
  }

  ghost predicate AllKnown(rows: seq<Row>, team: string) {
    forall key | Stored(rows, team, key).Some? :: IsKnown(key)
  }

  lemma TagsKnown(v: AirflowValues)
    ensures forall i | 0 <= i < |AllFields(v)| && AllFields(v)[i].tag != "" :: IsKnown(AllFields(v)[i].tag)
  {
    forall i | 0 <= i < |AllFields(v)| && AllFields(v)[i].tag != "" ensures IsKnown(AllFields(v)[i].tag) {
      var r := if i < 7 then i - 1 else i - 5;
      assert 0 <= r < 10 && AllFields(v)[i].tag == RowKey(r);
    }
  }

  lemma WrittenKnown(lists: Structs.Lists, v: AirflowValues, n: nat)
    ensures forall key | key in Written(lists, v, n) :: IsKnown(key)
  {
    TagsKnown(v);
    SinglesKeys(v, n);
    hide AllFields, RowKey, IsSingleKey;
    if Structs.ChartValues(lists, AllFields(v)).Ok? { Structs.ChartValuesTags(lists, AllFields(v)); }
  }

  lemma KnownStep(lists: Structs.Lists, before: seq<Row>, after: seq<Row>, op: Op, team: string)
    requires OpStep(lists, before, after, op) && AllKnown(before, team)
    ensures AllKnown(after, team)
  {
    forall key | Stored(after, team, key).Some? ensures IsKnown(key) {
      if op.Delete? {
        NewestOfDelete(before, op.team, AIRFLOW, team, AIRFLOW, key);
      } else {
        SyncWrites(lists, before, after, op);
        if Commits(lists, before, op) {
          WrittenKnown(lists, Merged(before, op.team, op.req, op.made).value, op.faults.singles);
        }
      }
    }
  }

  lemma {:induction false} KnownAlways(lists: Structs.Lists, states: seq<seq<Row>>, ops: seq<Op>, n: nat, team: string)
    requires IsHistory(lists, states, ops) && n <= |ops| && AllKnown(states[0], team)
    ensures AllKnown(states[n], team)
  {
    if n > 0 {
      KnownAlways(lists, states, ops, n - 1, team);
      hide AllKnown;
      KnownStep(lists, states[n - 1], states[n], ops[n - 1], team);
    }
  }

  // The team's rows as the rollout reads them: each stored key once, with its value.
  ghost predicate Reads(team: seq<TeamRow>, rows: seq<Row>, id: string) {
    && (forall i, j | 0 <= i < j < |team| :: team[i].key != team[j].key)
    && (forall i | 0 <= i < |team| :: Stored(rows, id, team[i].key) == Some(team[i].value))
    && (forall key | Stored(rows, id, key).Some? :: exists i :: 0 <= i < |team| && team[i].key == key)
  }

  // ---- The settings of a rollout -----------------------------------------------------------

  // Every setting of the team is one of the ten, and no two touch.
  lemma TeamSettingsApart(store: Store, rows: seq<Row>, id: string, ts: seq<Setting>, from: seq<nat>)
    returns (which: seq<nat>)
    requires Reads(store.team, rows, id) && AllKnown(rows, id)
    requires |from| == |ts| && forall i, j | 0 <= i < j < |from| :: from[i] < from[j]
    requires forall i | 0 <= i < |from| ::
               from[i] < |store.team| && TeamSetting(store, store.team[from[i]]) == Ok(Some(ts[i]))
    ensures |which| == |ts| && PairwiseIncomparable(ts)
    ensures forall i | 0 <= i < |ts| ::
              which[i] < 10 && store.team[from[i]].key == RowKey(which[i]) && ts[i].path == RowPath(which[i])
  {
    forall i | 0 <= i < |ts|
      ensures exists w: nat :: w < 10 && store.team[from[i]].key == RowKey(w) && ts[i].path == RowPath(w)
    {
      var row := store.team[from[i]];
      assert IsKnown(row.key);
      if IsSingleKey(row.key) { SecretsStayOut(store, row); }
      var w: nat :| w < 10 && row.key == RowKey(w);
      RowSets(store, w, row.value);
    }
    which := seq(|ts|, i requires 0 <= i < |ts| =>
      var w: nat :| w < 10 && store.team[from[i]].key == RowKey(w) && ts[i].path == RowPath(w); w);
    forall i, j | 0 <= i < j < |ts| ensures Incomparable(ts[i].path, ts[j].path) {
      assert store.team[from[i]].key != store.team[from[j]].key;
      RowPathsApart(which[i], which[j]);
    }
  }

  // Of the ten only the environment is overridden.
  lemma OnlyEnvOverridden(c: nat)
    requires c < 10 && c != 4
    ensures NotOverridden(true, RowPath(c))
  {
    assert INIT_PATH[0][0] == 'w' && ENV_PATH[0][0] == 'e' && RowPath(c)[0][0] != 'e';
    ForkApart(ENV_PATH, RowPath(c), 0);
    if c == 8 || c == 9 {
      assert RowPath(c)[1][0] != INIT_PATH[1][0];
      ForkApart(INIT_PATH, RowPath(c), 1);
    } else {
      assert |INIT_PATH[0]| == 7 && (RowPath(c)[0][0] == 'w' ==> |RowPath(c)[0]| == 9);
      ForkApart(INIT_PATH, RowPath(c), 0);
    }
  }

  lemma StoredReachesChart(store: Store, rows: seq<Row>, id: string, c: nat, chart: Kids, gs: seq<Setting>,
                           ts: seq<Setting>, final: Kids, from: seq<nat>, which: seq<nat>)
    requires Reads(store.team, rows, id) && Enriched(store, true, chart, gs, ts, final) && c < 10 && c != 4
    requires |from| == |which| == |ts| && PairwiseIncomparable(ts)
    requires forall i | 0 <= i < |from| ::
               from[i] < |store.team| && TeamSetting(store, store.team[from[i]]) == Ok(Some(ts[i]))
    requires forall r | 0 <= r < |store.team| ::
               var parsed := TeamSetting(store, store.team[r]); parsed.Ok? && (parsed.value.Some? ==> r in from)
    requires forall i | 0 <= i < |ts| ::
               which[i] < 10 && store.team[from[i]].key == RowKey(which[i]) && ts[i].path == RowPath(which[i])
    ensures match Stored(rows, id, RowKey(c))
            case Some(text) =>
              var parsed := Typed.ParseString(store.syntax, text);
              parsed.Ok? && Lookup(Node(final), RowPath(c)) == Some(parsed.value)
            case None =>
              Lookup(Node(final), RowPath(c)) == Lookup(Node(Merge(chart, SetAll(map[], gs))), RowPath(c))
  {
    OnlyEnvOverridden(c);
    hide RowKey, RowPath, NotOverridden, SetAll, Merge, Lookup, PairwiseIncomparable, TeamSetting, Stored;
    if Stored(rows, id, RowKey(c)).Some? {
      var r :| 0 <= r < |store.team| && store.team[r].key == RowKey(c);
      RowSets(store, c, store.team[r].value);
      var parsed := TeamSetting(store, store.team[r]);
      assert r in from;
      var j :| 0 <= j < |from| && from[j] == r;
      TeamWins(store, true, chart, gs, ts, final, j);
    } else {
      forall i | 0 <= i < |ts| ensures Incomparable(ts[i].path, RowPath(c)) {
        assert Stored(rows, id, store.team[from[i]].key).Some?;
        RowPathsApart(which[i], c);
      }
      ReadsBelowAirflow(store, true, chart, gs, ts, final, RowPath(c));
      SetAllApart(Merge(chart, SetAll(map[], gs)), ts, RowPath(c));
    }
  }

  // From the form to the cluster: over every history of syncs and deletions, the values that
  // a rollout hands to Helm read, at the path of each setting, what the team last asked for.
  // What it never asked for stays as the global values and the chart have it.
  lemma RolloutSeesLastAsked(lists: Structs.Lists, states: seq<seq<Row>>, ops: seq<Op>, n: nat, id: string, c: nat,
                             store: Store, chart: Kids, gs: seq<Setting>, ts: seq<Setting>, final: Kids)
    requires IsHistory(lists, states, ops) && n <= |ops| && AllKnown(states[0], id)
    requires Reads(store.team, states[n], id) && Enriched(store, true, chart, gs, ts, final)
    requires c < 4
    ensures match LastAsked(lists, states, ops, n, id, RowKey(c))
            case Some(text) =>
              var parsed := Typed.ParseString(store.syntax, text);
              parsed.Ok? && Lookup(Node(final), RowPath(c)) == Some(parsed.value)
            case None =>
              Lookup(Node(final), RowPath(c)) == Lookup(Node(Merge(chart, SetAll(map[], gs))), RowPath(c))
  {
    KnownAlways(lists, states, ops, n, id);
    Sticky(lists, states, ops, n, id, RowKey(c));
    var from := CollectedFrom(row => TeamSetting(store, row), store.team, ts);
    hide RowKey, RowPath, IsHistory, LastAsked, AllKnown, SetAll, Merge, Lookup, TeamSetting, Reads;
    var which := TeamSettingsApart(store, states[n], id, ts, from);
    StoredReachesChart(store, states[n], id, c, chart, gs, ts, final, from, which);
  }

  predicate IsPathOf(key: string, path: Path) {
    || (key == "dags.gitSync.repo" && path == ["dags", "gitSync", "repo"])
    || (key == "dags.gitSync.branch" && path == ["dags", "gitSync", "branch"])
    || (key == "images.airflow.repository" && path == ["images", "airflow", "repository"])
    || (key == "images.airflow.tag" && path == ["images", "airflow", "tag"])
    || (key == "webserver.env" && path == ["webserver", "env"])
    || (key == "webserver.serviceAccount.name" && path == ["webserver", "serviceAccount", "name"])
    || (key == "scheduler.serviceAccount.name" && path == ["scheduler", "serviceAccount", "name"])
    || (key == "workers.serviceAccount.name" && path == ["workers", "serviceAccount", "name"])
    || (key == "workers.labels" && path == ["workers", "labels"])
  }

  // By name: nine of the stored texts are read at their own paths, as they are.
  lemma RolloutReadsStored(rows: seq<Row>, id: string, key: string, path: Path, text: string, store: Store, chart: Kids,
                           gs: seq<Setting>, ts: seq<Setting>, final: Kids)
    requires Reads(store.team, rows, id) && AllKnown(rows, id) && Enriched(store, true, chart, gs, ts, final)
    requires IsPathOf(key, path)
    requires Newest(rows, id, "airflow", key) == Some(text)
    ensures Typed.ParseString(store.syntax, text).Ok?
    ensures Lookup(Node(final), path) == Some(Typed.ParseString(store.syntax, text).value)
    ensures Typed.IsPlainText(store.syntax, text) ==> Lookup(Node(final), path) == Some(Leaf(Str(text)))
  {
    var c := RowOf(key, path);
    var from := CollectedFrom(row => TeamSetting(store, row), store.team, ts);
    if Typed.IsPlainText(store.syntax, text) { Typed.PlainTextIs(store.syntax, text); }
    hide RowKey, RowPath, AllKnown, SetAll, Merge, Lookup, TeamSetting, Reads, Newest, Typed.IsPlainText,
         Typed.ParseString;
    var which := TeamSettingsApart(store, rows, id, ts, from);
    StoredReachesChart(store, rows, id, c, chart, gs, ts, final, from, which);
  }

  lemma RowOf(key: string, path: Path) returns (c: nat)
    requires IsPathOf(key, path)
    ensures c < 10 && c != 4 && RowKey(c) == key && RowPath(c) == path
  {
    c := if path[0] == "dags" then if path[2] == "repo" then 0 else 1
         else if path[0] == "images" then if path[2] == "repository" then 2 else 3
         else if |path| == 2 then if path[1] == "env" then 5 else 9
         else if path[0] == "webserver" then 6 else if path[0] == "scheduler" then 7 else 8;
  }

  // So over every history a plain text that the team last asked for is what Helm gets.
  lemma RolloutReadsAsked(lists: Structs.Lists, states: seq<seq<Row>>, ops: seq<Op>, n: nat, id: string, key: string,
                          path: Path, text: string, store: Store, chart: Kids, gs: seq<Setting>, ts: seq<Setting>,
                          final: Kids)
    requires IsHistory(lists, states, ops) && n <= |ops| && AllKnown(states[0], id)
    requires Reads(store.team, states[n], id) && Enriched(store, true, chart, gs, ts, final)
    requires IsPathOf(key, path)
    requires key in {"dags.gitSync.repo", "dags.gitSync.branch", "images.airflow.repository", "images.airflow.tag"}
    requires LastAsked(lists, states, ops, n, id, key) == Some(text) && Typed.IsPlainText(store.syntax, text)
    ensures Lookup(Node(final), path) == Some(Leaf(Str(text)))
  {
    KnownAlways(lists, states, ops, n, id);
    Sticky(lists, states, ops, n, id, key);
    hide IsHistory, LastAsked, AllKnown, Reads, Enriched, Lookup, Newest, Typed.IsPlainText, Typed.ParseString;
    RolloutReadsStored(states[n], id, key, path, text, store, chart, gs, ts, final);
  }
}
