// Which layer a path of the final values reads.
module Precedence {
  import opened Wrappers
  import opened Trees
  import opened Keys
  import opened Values
  import opened Enrichers

  function ReleaseEnrichers(airflow: bool): seq<Enricher> {
    [Global, Team] + if airflow then [Airflow] else []
  }

  // The enriched values of a release, with the settings behind them.
  predicate Enriched(store: Store, airflow: bool, chart: Kids, gs: seq<Setting>, ts: seq<Setting>, final: Kids) {
    && GlobalSettings(store) == Ok(gs)
    && TeamSettings(store) == Ok(ts)
    && Chain(store, ReleaseEnrichers(airflow), chart) == Ok(final)
  }

  // Airflow overrides two paths.
  predicate NotOverridden(airflow: bool, path: Path) {
    airflow ==> Incomparable(INIT_PATH, path) && Incomparable(ENV_PATH, path)
  }

  function BelowAirflow(chart: Kids, gs: seq<Setting>, ts: seq<Setting>): Kids
    requires Settable(gs) && Settable(ts)
  {
    SetAll(Merge(chart, SetAll(map[], gs)), ts)
  }

  lemma ChainCons(store: Store, e: Enricher, rest: seq<Enricher>, values: Kids)
    ensures var layered := Layer(store, e, values);
            Chain(store, [e] + rest, values) ==
            if layered.Err? then layered else Chain(store, rest, layered.value)
    ensures Chain(store, [], values) == Ok(values)
  {
    hide Layer;
    assert ([e] + rest)[1..] == rest;
  }

  lemma LayersAre(store: Store, chart: Kids, values: Kids, gs: seq<Setting>, ts: seq<Setting>)
    requires GlobalSettings(store) == Ok(gs) && TeamSettings(store) == Ok(ts)
    ensures GlobalLayer(store, chart) == Ok(Merge(chart, SetAll(map[], gs)))
    ensures TeamLayer(store, values) == Ok(SetAll(values, ts))
  {
    hide GlobalSettings, TeamSettings, Merge, SetAll;
  }

  lemma ChainIs(store: Store, airflow: bool, chart: Kids, gs: seq<Setting>, ts: seq<Setting>, final: Kids)
    requires Enriched(store, airflow, chart, gs, ts, final)
    ensures if airflow then AirflowLayer(store, BelowAirflow(chart, gs, ts)) == Ok(final)
            else final == BelowAirflow(chart, gs, ts)
  {
    var afterGlobal := Merge(chart, SetAll(map[], gs));
    var afterTeam := SetAll(afterGlobal, ts);
    var last := if airflow then [Airflow] else [];
    LayersAre(store, chart, afterGlobal, gs, ts);
    hide GlobalLayer, TeamLayer, AirflowLayer, Merge, SetAll, GlobalSettings, TeamSettings;
    assert ReleaseEnrichers(airflow) == [Global] + ([Team] + last);
    ChainCons(store, Global, [Team] + last, chart);
    ChainCons(store, Team, last, afterGlobal);
    if airflow {
      assert last == [Airflow] + [];
      ChainCons(store, Airflow, [], afterTeam);
      ChainCons(store, Airflow, [], final);
    }
  }

  // The Airflow layer sets two paths, the second only when there is something to set.
  lemma AirflowSets(store: Store, values: Kids, final: Kids) returns (image: string, envs: seq<Tree>)
    requires AirflowLayer(store, values) == Ok(final)
    ensures GlobalValue(store.globals, KNAUDIT_IMAGE) == Some(image) && Envs(store) == Ok(envs)
    ensures var withInit := SetPath(values, INIT_PATH, Leaf(InitContainers(image)));
            final == if envs == [] then withInit else SetPath(withInit, ENV_PATH, Leaf(List(envs)))
  {
    hide InitContainers, Envs, SetPath;
    image, envs := GlobalValue(store.globals, KNAUDIT_IMAGE).value, Envs(store).value;
    assert forall base :: Merge(base, map[]) == base;
    MergeOfSet(values, map[], INIT_PATH, InitContainers(image));
    var withInit := SetPath(values, INIT_PATH, Leaf(InitContainers(image)));
    MergeOfSet(withInit, map[], ENV_PATH, List(envs));
  }

  lemma AirflowApart(store: Store, values: Kids, final: Kids, q: Path)
    requires AirflowLayer(store, values) == Ok(final) && NotOverridden(true, q)
    ensures Lookup(Node(final), q) == Lookup(Node(values), q)
  {
    hide AirflowLayer, InitContainers, SetPath, Lookup;
    var image, envs := AirflowSets(store, values, final);
    var withInit := SetPath(values, INIT_PATH, Leaf(InitContainers(image)));
    SetThenApart(values, INIT_PATH, Leaf(InitContainers(image)), q);
    if envs != [] { SetThenApart(withInit, ENV_PATH, Leaf(List(envs)), q); }
  }

  // Past the Airflow layer a path reads what it did before, unless it is overridden.
  lemma ReadsBelowAirflow(store: Store, airflow: bool, chart: Kids, gs: seq<Setting>, ts: seq<Setting>, final: Kids,
                          q: Path)
    requires Enriched(store, airflow, chart, gs, ts, final) && NotOverridden(airflow, q)
    ensures Lookup(Node(final), q) == Lookup(Node(BelowAirflow(chart, gs, ts)), q)
  {
    ChainIs(store, airflow, chart, gs, ts, final);
    if airflow { AirflowApart(store, BelowAirflow(chart, gs, ts), final, q); }
  }

  // A team's path that none of its later values touches reads the team's value, whatever the
  // earlier ones and the layers below say.
  lemma TeamWins(store: Store, airflow: bool, chart: Kids, gs: seq<Setting>, ts: seq<Setting>, final: Kids, j: nat)
    requires Enriched(store, airflow, chart, gs, ts, final)
    requires j < |ts| && NotOverridden(airflow, ts[j].path)
    requires forall k | j < k < |ts| :: Incomparable(ts[k].path, ts[j].path)
    ensures Lookup(Node(final), ts[j].path) == Some(ts[j].value)
  {
    ReadsBelowAirflow(store, airflow, chart, gs, ts, final, ts[j].path);
    SetAllReads(Merge(chart, SetAll(map[], gs)), ts, j);
  }

  // Wherever the batch of global values has a scalar and no team path touches it, that
  // scalar shows, whatever the chart says and whatever else the global values clash on.
  lemma GlobalShows(store: Store, airflow: bool, chart: Kids, gs: seq<Setting>, ts: seq<Setting>, final: Kids, q: Path)
    requires Enriched(store, airflow, chart, gs, ts, final) && NotOverridden(airflow, q)
    requires var found := Lookup(Node(SetAll(map[], gs)), q); found.Some? && found.value.Leaf?
    requires forall j | 0 <= j < |ts| :: Incomparable(ts[j].path, q)
    ensures Lookup(Node(final), q) == Lookup(Node(SetAll(map[], gs)), q)
  {
    ReadsBelowAirflow(store, airflow, chart, gs, ts, final, q);
    SetAllApart(Merge(chart, SetAll(map[], gs)), ts, q);
    MergeReads(chart, gs, q);
  }

  // In particular a global scalar that no later global value touches shows at its path.
  lemma GlobalSettingShows(store: Store, airflow: bool, chart: Kids, gs: seq<Setting>, ts: seq<Setting>, final: Kids,
                           i: nat)
    requires Enriched(store, airflow, chart, gs, ts, final)
    requires i < |gs| && gs[i].value.Leaf? && NotOverridden(airflow, gs[i].path)
    requires forall k | i < k < |gs| :: Incomparable(gs[k].path, gs[i].path)
    requires forall j | 0 <= j < |ts| :: Incomparable(ts[j].path, gs[i].path)
    ensures Lookup(Node(final), gs[i].path) == Some(gs[i].value)
  {
    SetAllReads(map[], gs, i);
    GlobalShows(store, airflow, chart, gs, ts, final, gs[i].path);
  }

  // ---- Rows and readings --------------------------------------------------------------------

  lemma ChainHasLayers(store: Store, airflow: bool, chart: Kids, final: Kids)
    returns (gs: seq<Setting>, ts: seq<Setting>)
    requires Chain(store, ReleaseEnrichers(airflow), chart) == Ok(final)
    ensures Enriched(store, airflow, chart, gs, ts, final)
  {
    var last := if airflow then [Airflow] else [];
    assert ReleaseEnrichers(airflow) == [Global] + ([Team] + last);
    hide AirflowLayer, SetAll, Merge, GlobalSettings, TeamSettings;
    ChainCons(store, Global, [Team] + last, chart);
    ChainCons(store, Team, last, GlobalLayer(store, chart).value);
    gs, ts := GlobalSettings(store).value, TeamSettings(store).value;
  }

  // A team's row that sets nothing at the path or around it.
  predicate LeavesAlone(row: TeamRow, path: Path) {
    row.key in {"fernetKey", "webserverSecretKey"} || Omitted(row.key)
    || Incomparable(KeySplit(KeyName(row.key)), path)
  }

  lemma TeamSettingsApart(store: Store, ts: seq<Setting>, path: Path)
    requires TeamSettings(store) == Ok(ts) && forall j | 0 <= j < |store.team| :: LeavesAlone(store.team[j], path)
    ensures forall j | 0 <= j < |ts| :: Incomparable(ts[j].path, path)
  {
    hide KeySplit, KeyName, Omitted;
    var from := CollectedFrom(row => TeamSetting(store, row), store.team, ts);
    forall j | 0 <= j < |ts| ensures Incomparable(ts[j].path, path) {
      assert LeavesAlone(store.team[from[j]], path);
    }
  }

  // What a global row means: its text, decrypted if it is encrypted.
  lemma GlobalRowParses(store: Store, row: GlobalRow, s: Option<Setting>)
    requires GlobalSetting(store, row) == Ok(s)
    ensures var plain := if row.encrypted then store.decrypt(row.value) else Some(row.value);
            plain.Some? && s.Some? && s.value.path == KeySplit(row.key)
            && ParseString(store.syntax, plain.value) == Ok(s.value.value)
  {
    hide KeySplit, ParseString;
  }

  // A global row that no later one touches, and no row of the team, is what Helm gets at the
  // row's path: the meaning of its plain text, where an encrypted row has been decrypted.
  lemma GlobalRowReads(store: Store, airflow: bool, chart: Kids, final: Kids, i: nat)
    requires Chain(store, ReleaseEnrichers(airflow), chart) == Ok(final) && i < |store.globals|
    requires NotOverridden(airflow, KeySplit(store.globals[i].key))
    requires forall k | i < k < |store.globals| ::
               Incomparable(KeySplit(store.globals[k].key), KeySplit(store.globals[i].key))
    requires forall j | 0 <= j < |store.team| :: LeavesAlone(store.team[j], KeySplit(store.globals[i].key))
    ensures var row := store.globals[i];
            var plain := if row.encrypted then store.decrypt(row.value) else Some(row.value);
            plain.Some? && ParseString(store.syntax, plain.value).Ok?
            && (ParseString(store.syntax, plain.value).value.Leaf? ==>
                  Lookup(Node(final), KeySplit(row.key)) == Some(ParseString(store.syntax, plain.value).value))
            && (IsPlainText(store.syntax, plain.value) ==>
                  Lookup(Node(final), KeySplit(row.key)) == Some(Leaf(Str(plain.value))))
  {
    var gs, ts := ChainHasLayers(store, airflow, chart, final);
    var row, path := store.globals[i], KeySplit(store.globals[i].key);
    var plain := if row.encrypted then store.decrypt(row.value) else Some(row.value);
    var from := CollectedFrom(row => GlobalSetting(store, row), store.globals, gs);
    TeamSettingsApart(store, ts, path);
    forall k | 0 <= k < |gs|
      ensures GlobalSetting(store, store.globals[from[k]]) == Ok(Some(gs[k]))
              && gs[k].path == KeySplit(store.globals[from[k]].key)
    {
      GlobalRowParses(store, store.globals[from[k]], Some(gs[k]));
    }
    assert GlobalSetting(store, row).Ok?;
    GlobalRowParses(store, row, GlobalSetting(store, row).value);
    assert i in from;
    var j :| 0 <= j < |from| && from[j] == i;
    if plain.Some? && IsPlainText(store.syntax, plain.value) { PlainTextIs(store.syntax, plain.value); }
    hide GlobalSetting, KeySplit, ParseString, IsPlainText, Enriched, Lookup, LeavesAlone, NotOverridden;
    if gs[j].value.Leaf? { GlobalSettingShows(store, airflow, chart, gs, ts, final, j); }
  }

  // A row that does not decrypt fails its layer, whatever the others are.
  lemma BadCipherFails(store: Store, values: Kids, i: nat)
    requires i < |store.globals| && store.globals[i].encrypted && store.decrypt(store.globals[i].value) == None
    ensures GlobalLayer(store, values).Err?
  {
    assert GlobalSetting(store, store.globals[i]) == Err(BadCipher);
    if GlobalSettings(store).Ok? {
      var from := CollectedFrom(row => GlobalSetting(store, row), store.globals, GlobalSettings(store).value);
    }
  }

  // Any other path reads what the chart has there.
  lemma ChartShows(store: Store, airflow: bool, chart: Kids, gs: seq<Setting>, ts: seq<Setting>, final: Kids, q: Path)
    requires Enriched(store, airflow, chart, gs, ts, final) && q != [] && NotOverridden(airflow, q)
    requires forall i | 0 <= i < |gs| :: Incomparable(gs[i].path, q)
    requires forall j | 0 <= j < |ts| :: Incomparable(ts[j].path, q)
    ensures Lookup(Node(final), q) == Lookup(Node(chart), q)
  {
    ReadsBelowAirflow(store, airflow, chart, gs, ts, final, q);
    SetAllApart(Merge(chart, SetAll(map[], gs)), ts, q);
    MergeApart(chart, gs, q);
  }

  // The two overrides: the init container, and the global environment list followed by the
  // team's when either has an entry. With none, the environment stays as the layers left it.
  lemma AirflowOverrides(store: Store, chart: Kids, gs: seq<Setting>, ts: seq<Setting>, final: Kids)
    requires Enriched(store, true, chart, gs, ts, final)
    ensures exists image, envs ::
              && GlobalValue(store.globals, KNAUDIT_IMAGE) == Some(image) && Envs(store) == Ok(envs)
              && Lookup(Node(final), INIT_PATH) == Some(Leaf(InitContainers(image)))
              && Lookup(Node(final), ENV_PATH) ==
                 if envs == [] then Lookup(Node(BelowAirflow(chart, gs, ts)), ENV_PATH) else Some(Leaf(List(envs)))
  {
    hide AirflowLayer, InitContainers, SetPath, Lookup, Envs;
    ChainIs(store, true, chart, gs, ts, final);
    var values := BelowAirflow(chart, gs, ts);
    var image, envs := AirflowSets(store, values, final);
    var init := Leaf(InitContainers(image));
    var withInit := SetPath(values, INIT_PATH, init);
    assert Incomparable(INIT_PATH, ENV_PATH) && Incomparable(ENV_PATH, INIT_PATH) by {
      assert INIT_PATH[0] != ENV_PATH[0];
    }
    SetThenSame(values, INIT_PATH, init);
    SetThenApart(values, INIT_PATH, init, ENV_PATH);
    if envs != [] {
      SetThenSame(withInit, ENV_PATH, Leaf(List(envs)));
      SetThenApart(withInit, ENV_PATH, Leaf(List(envs)), INIT_PATH);
    }
  }

  lemma {:induction false} GlobalValueAt(rows: seq<GlobalRow>, key: string, i: nat)
    requires i < |rows| && rows[i].key == key && forall j | 0 <= j < i :: rows[j].key != key
    ensures GlobalValue(rows, key) == Some(rows[i].value)
  {
    if i > 0 {
      assert rows[0].key != key;
      GlobalValueAt(rows[1..], key, i - 1);
    }
  }

  // What Airflow gets as its environment: the global list from the row "env" and then the
  // team's.
  lemma EnvironmentReads(store: Store, chart: Kids, final: Kids, i: nat, global: seq<Tree>, team: seq<Tree>)
    requires Chain(store, ReleaseEnrichers(true), chart) == Ok(final)
    requires i < |store.globals| && store.globals[i].key == "env"
    requires forall j | 0 <= j < i :: store.globals[j].key != "env"
    requires store.jsonList(store.globals[i].value) == Some(global)
    requires store.teamEnv.Some? && store.jsonList(store.teamEnv.value) == Some(team)
    ensures global + team != [] ==> Lookup(Node(final), ["env"]) == Some(Leaf(List(global + team)))
  {
    GlobalValueAt(store.globals, "env", i);
    assert Envs(store) == Ok(global + team);
    hide Envs, AirflowLayer, Chain, GlobalValue, Lookup, KnauditContainer;
    var gs, ts := ChainHasLayers(store, true, chart, final);
    AirflowOverrides(store, chart, gs, ts, final);
  }

  // Its init container, by name: the image comes from the row "knauditImage,omit".
  lemma KnauditReads(store: Store, chart: Kids, final: Kids, i: nat) returns (c: Tree)
    requires Chain(store, ReleaseEnrichers(true), chart) == Ok(final)
    requires i < |store.globals| && store.globals[i].key == "knauditImage,omit"
    requires forall j | 0 <= j < i :: store.globals[j].key != "knauditImage,omit"
    ensures Lookup(Node(final), ["workers", "extraInitContainers"]) == Some(Leaf(List([c])))
    ensures c == KnauditContainer(store.globals[i].value)
  {
    GlobalValueAt(store.globals, "knauditImage,omit", i);
    c := KnauditContainer(store.globals[i].value);
    hide Envs, AirflowLayer, Chain, GlobalValue, Lookup, KnauditContainer;
    var gs, ts := ChainHasLayers(store, true, chart, final);
    AirflowOverrides(store, chart, gs, ts, final);
  }

  lemma OneDown(t: Tree, k: string, rest: Path)
    requires t.Node? && k in t.kids
    ensures Lookup(t, [k] + rest) == Lookup(t.kids[k], rest)
    ensures Lookup(t, [k]) == Some(t.kids[k])
  {
    assert ([k] + rest)[1..] == rest && [k][1..] == [];
    assert Lookup(t.kids[k], []) == Some(t.kids[k]);
  }

  // One, two and three steps down.
  lemma Down(t: Tree, a: string, b: string, c: string)
    requires t.Node? && a in t.kids
    ensures Lookup(t, [a]) == Some(t.kids[a])
    ensures t.kids[a].Node? && b in t.kids[a].kids ==>
              Lookup(t, [a, b]) == Some(t.kids[a].kids[b])
              && (t.kids[a].kids[b].Node? && c in t.kids[a].kids[b].kids ==>
                    Lookup(t, [a, b, c]) == Some(t.kids[a].kids[b].kids[c]))
  {
    hide Lookup;
    assert [a] + [b] == [a, b] && [a] + [b, c] == [a, b, c] && [b] + [c] == [b, c];
    OneDown(t, a, [b]);
    OneDown(t, a, [b, c]);
    if t.kids[a].Node? && b in t.kids[a].kids {
      OneDown(t.kids[a], b, [c]);
      if t.kids[a].kids[b].Node? && c in t.kids[a].kids[b].kids { OneDown(t.kids[a].kids[b], c, []); }
    }
  }

  lemma FieldIs(name: string, path: string)
    ensures Lookup(FromField(name, path), ["name"]) == Some(Leaf(Str(name)))
    ensures Lookup(FromField(name, path), ["valueFrom", "fieldRef", "fieldPath"]) == Some(Leaf(Str(path)))
  {
    Down(FromField(name, path), "name", "", "");
    Down(FromField(name, path), "valueFrom", "fieldRef", "fieldPath");
    hide Lookup;
  }

  lemma EnvVarIs(name: string, value: string)
    ensures Lookup(EnvVar(name, value), ["name"]) == Some(Leaf(Str(name)))
    ensures Lookup(EnvVar(name, value), ["value"]) == Some(Leaf(Str(value)))
  {
    Down(EnvVar(name, value), "name", "", "");
    Down(EnvVar(name, value), "value", "", "");
    hide Lookup;
  }

  // What the container is and asks for.
  lemma KnauditIs(image: string)
    ensures Lookup(KnauditContainer(image), ["name"]) == Some(Leaf(Str("knaudit")))
    ensures Lookup(KnauditContainer(image), ["image"]) == Some(Leaf(Str(image)))
    ensures Lookup(KnauditContainer(image), ["resources", "requests", "cpu"]) == Some(Leaf(Str("200m")))
    ensures Lookup(KnauditContainer(image), ["resources", "requests", "memory"]) == Some(Leaf(Str("128Mi")))
  {
    var c := KnauditContainer(image);
    Down(c, "name", "", "");
    Down(c, "image", "", "");
    Down(c, "resources", "requests", "cpu");
    Down(c, "resources", "requests", "memory");
    hide Lookup, FromField, EnvVar;
  }

  // It runs as user 50000 and cannot gain privileges.
  lemma KnauditRunsAs(image: string)
    ensures var c := KnauditContainer(image);
            && Lookup(c, ["securityContext", "allowPrivilegeEscalation"]) == Some(Leaf(Bool(false)))
            && Lookup(c, ["securityContext", "runAsGroup"]) == Some(Leaf(Int(0)))
            && Lookup(c, ["securityContext", "runAsUser"]) == Some(Leaf(Int(50000)))
  {
    var c := KnauditContainer(image);
    Down(c, "securityContext", "allowPrivilegeEscalation", "");
    Down(c, "securityContext", "runAsGroup", "");
    Down(c, "securityContext", "runAsUser", "");
    hide Lookup, FromField, EnvVar;
  }

  // Its environment: where the pod runs, where the proxy is, and which run of which task of
  // the team's workflow it belongs to.
  lemma KnauditEnvIs(image: string) returns (url: Tree)
    ensures Lookup(KnauditContainer(image), ["env"]) ==
            Some(Leaf(List([FromField("POD_NAME", "metadata.name"), FromField("NAMESPACE", "metadata.namespace"),
                            EnvVar("KNAUDIT_PROXY_URL", "http://knaudit-proxy.knada-system.svc.cluster.local"),
                            EnvVar("CA_CERT_PATH", "/etc/pki/tls/certs/ca-bundle.crt"),
                            EnvVar("GIT_REPO_PATH", "/dags"),
                            FromField("AIRFLOW_DAG_ID", "metadata.annotations['dag_id']"),
                            FromField("AIRFLOW_RUN_ID", "metadata.annotations['run_id']"),
                            FromField("AIRFLOW_TASK_ID", "metadata.annotations['task_id']"), url])))
    ensures Lookup(url, ["name"]) == Some(Leaf(Str("AIRFLOW_DB_URL")))
    ensures Lookup(url, ["valueFrom", "secretKeyRef", "name"]) == Some(Leaf(Str("airflow-db")))
    ensures Lookup(url, ["valueFrom", "secretKeyRef", "key"]) == Some(Leaf(Str("connection")))
  {
    var c := KnauditContainer(image);
    Down(c, "env", "", "");
    hide Lookup, FromField, EnvVar;
    var env := c.kids["env"].v.items;
    url := env[8];
    Down(url, "name", "", "");
    Down(url, "valueFrom", "secretKeyRef", "name");
    Down(url, "valueFrom", "secretKeyRef", "key");
    assert env == env[..8] + [url];
  }

  // And its two mounts.
  lemma KnauditMountsAre(image: string) returns (dags: Tree, bundle: Tree)
    ensures Lookup(KnauditContainer(image), ["volumeMounts"]) == Some(Leaf(List([dags, bundle])))
    ensures Lookup(dags, ["mountPath"]) == Some(Leaf(Str("/dags"))) && Lookup(dags, ["name"]) == Some(Leaf(Str("dags")))
    ensures Lookup(bundle, ["mountPath"]) == Some(Leaf(Str("/etc/pki/tls/certs/ca-bundle.crt")))
    ensures Lookup(bundle, ["name"]) == Some(Leaf(Str("ca-bundle-pem")))
    ensures Lookup(bundle, ["readOnly"]) == Some(Leaf(Bool(true)))
    ensures Lookup(bundle, ["subPath"]) == Some(Leaf(Str("ca-bundle.pem")))
  {
    var c := KnauditContainer(image);
    Down(c, "volumeMounts", "", "");
    hide Lookup, FromField, EnvVar;
    var mounts := c.kids["volumeMounts"].v.items;
    dags, bundle := mounts[0], mounts[1];
    Down(dags, "mountPath", "", "");
    Down(dags, "name", "", "");
    Down(bundle, "mountPath", "", "");
    Down(bundle, "name", "", "");
    Down(bundle, "readOnly", "", "");
    Down(bundle, "subPath", "", "");
  }

  // When no global value is a map and none is set below an earlier one, batching and
  // merging the globals is the same as setting them straight onto the chart.
  lemma GlobalsDirect(store: Store, chart: Kids, gs: seq<Setting>)
    requires GlobalSettings(store) == Ok(gs) && AllLeaves(gs) && NoneBelowEarlier(gs)
    ensures GlobalLayer(store, chart) == Ok(SetAll(chart, gs))
  {
    BatchedEqualsDirect(chart, gs);
  }
}
