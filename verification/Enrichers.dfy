// The layers of values behind a Helm release: the chart's own, then the global values, then
// the team's, then what every Airflow release gets.
module Enrichers {
  import opened Wrappers
  import opened Trees
  import opened ValueMaps
  import opened Keys
  import opened Values

  datatype GlobalRow = GlobalRow(key: string, value: string, encrypted: bool)

  datatype TeamRow = TeamRow(key: string, value: string)

  // What the enrichers read, and the libraries they call. NoSegment stands for the panic on
  // a key that is only dots.
  datatype Store = Store(
    globals: seq<GlobalRow>,
    team: seq<TeamRow>,
    teamEnv: Option<string>,
    decrypt: string -> Option<string>,
    syntax: Syntax,
    jsonList: string -> Option<seq<Tree>>)

  datatype EnrichError = BadCipher | BadValue | NoSegment | NoRow | BadList

  datatype Enricher = Global | Team | Airflow

  const ENV := "env"
  const KNAUDIT_IMAGE := "knauditImage,omit"
  const UNSET_KEYS := ["fernetKey", "webserverSecretKey"]

  // ---- Rows as settings ---------------------------------------------------------

  // None for a row that sets nothing.
  type Parsed = Result<Option<Setting>, EnrichError>

  function GlobalSetting(store: Store, row: GlobalRow): Parsed {
    var text := if row.encrypted then store.decrypt(row.value) else Some(row.value);
    if text == None then Err(BadCipher)
    else
      match ParseString(store.syntax, text.value)
      case Err(_) => Err(BadValue)
      case Ok(value) => Ok(Some(Setting(KeySplit(row.key), value)))
  }

  function TeamSetting(store: Store, row: TeamRow): Parsed {
    if row.key in UNSET_KEYS || Omitted(row.key) then Ok(None)
    else
      match ParseString(store.syntax, row.value)
      case Err(_) => Err(BadValue)
      case Ok(value) => Ok(Some(Setting(KeySplit(KeyName(row.key)), value)))
  }

  // The settings of the rows in order, or the first error.
  function Collect<R>(parse: R -> Parsed, rows: seq<R>): (r: Result<seq<Setting>, EnrichError>)
    ensures r.Ok? ==> Settable(r.value)
  {
    if rows == [] then Ok([])
    else
      var n := |rows| - 1;
      match Collect(parse, rows[..n])
      case Err(e) => Err(e)
      case Ok(before) =>
        match parse(rows[n])
        case Err(e) => Err(e)
        case Ok(None) => Ok(before)
        case Ok(Some(s)) => if s.path == [] then Err(NoSegment) else Ok(before + [s])
  }

  lemma {:induction false} CollectStops<R>(parse: R -> Parsed, rows: seq<R>, n: nat)
    requires n <= |rows| && Collect(parse, rows[..n]).Err?
    ensures Collect(parse, rows) == Collect(parse, rows[..n])
    decreases |rows|
  {
    if n == |rows| {
      assert rows[..n] == rows;
    } else {
      assert rows[..|rows| - 1][..n] == rows[..n];
      CollectStops(parse, rows[..|rows| - 1], n);
    }
  }

  lemma CollectStep<R>(parse: R -> Parsed, rows: seq<R>, n: nat)
    requires n < |rows| && Collect(parse, rows[..n]).Ok?
    ensures var before := Collect(parse, rows[..n]).value;
            Collect(parse, rows[..n + 1]) ==
            match parse(rows[n])
            case Err(e) => Err(e)
            case Ok(None) => Ok(before)
            case Ok(Some(s)) => if s.path == [] then Err(NoSegment) else Ok(before + [s])
  {
    assert rows[..n + 1][..n] == rows[..n];
  }

  // Which row each collected setting comes from.
  lemma {:induction false} CollectedFrom<R>(parse: R -> Parsed, rows: seq<R>, settings: seq<Setting>)
    returns (from: seq<nat>)
    requires Collect(parse, rows) == Ok(settings)
    ensures |from| == |settings| && forall i, j | 0 <= i < j < |from| :: from[i] < from[j]
    ensures forall i | 0 <= i < |from| :: from[i] < |rows| && parse(rows[from[i]]) == Ok(Some(settings[i]))
    ensures forall r | 0 <= r < |rows| :: parse(rows[r]).Ok? && (parse(rows[r]).value.Some? ==> r in from)
    decreases |rows|
  {
    if rows == [] {
      from := [];
    } else {
      var n := |rows| - 1;
      var before := Collect(parse, rows[..n]).value;
      from := CollectedFrom(parse, rows[..n], before);
      var earlier := from;
      if parse(rows[n]).value.Some? { from := from + [n]; }
      forall r | 0 <= r < |rows| ensures parse(rows[r]).Ok? && (parse(rows[r]).value.Some? ==> r in from) {
        if r < n {
          assert rows[..n][r] == rows[r];
          assert forall x | x in earlier :: x in from;
        }
      }
    }
  }

  lemma SetAllSnoc(kids: Kids, settings: seq<Setting>, s: Setting)
    requires Settable(settings) && s.path != []
    ensures SetAll(kids, settings + [s]) == SetPath(SetAll(kids, settings), s.path, s.value)
  {
    assert (settings + [s])[..|settings|] == settings;
  }

  // ---- The layers as functions of the values --------------------------------------

  type Layered = Result<Kids, EnrichError>

  function GlobalSettings(store: Store): (r: Result<seq<Setting>, EnrichError>)
    ensures r.Ok? ==> Settable(r.value)
  {
    Collect(row => GlobalSetting(store, row), store.globals)
  }

  function TeamSettings(store: Store): (r: Result<seq<Setting>, EnrichError>)
    ensures r.Ok? ==> Settable(r.value)
  {
    Collect(row => TeamSetting(store, row), store.team)
  }

  // The settings of the team's first n rows.
  function TeamUpTo(store: Store, n: nat): (r: Result<seq<Setting>, EnrichError>)
    requires n <= |store.team|
    ensures r.Ok? ==> Settable(r.value)
  {
    Collect(row => TeamSetting(store, row), store.team[..n])
  }

  function GlobalLayer(store: Store, values: Kids): Layered {
    match GlobalSettings(store)
    case Err(e) => Err(e)
    case Ok(settings) => Ok(Merge(values, SetAll(map[], settings)))
  }

  function TeamLayer(store: Store, values: Kids): Layered {
    match TeamSettings(store)
    case Err(e) => Err(e)
    case Ok(settings) => Ok(SetAll(values, settings))
  }

  function Text(s: string): Tree { Leaf(Str(s)) }

  function FromField(name: string, path: string): Tree {
    Node(map["name" := Text(name), "valueFrom" := Node(map["fieldRef" := Node(map["fieldPath" := Text(path)])])])
  }

  function EnvVar(name: string, value: string): Tree {
    Node(map["name" := Text(name), "value" := Text(value)])
  }

  function KnauditContainer(image: string): Tree {
    Node(map[
      "name" := Text("knaudit"),
      "image" := Text(image),
      "env" := Leaf(List([
        FromField("POD_NAME", "metadata.name"),
        FromField("NAMESPACE", "metadata.namespace"),
        EnvVar("KNAUDIT_PROXY_URL", "http://knaudit-proxy.knada-system.svc.cluster.local"),
        EnvVar("CA_CERT_PATH", "/etc/pki/tls/certs/ca-bundle.crt"),
        EnvVar("GIT_REPO_PATH", "/dags"),
        FromField("AIRFLOW_DAG_ID", "metadata.annotations['dag_id']"),
        FromField("AIRFLOW_RUN_ID", "metadata.annotations['run_id']"),
        FromField("AIRFLOW_TASK_ID", "metadata.annotations['task_id']"),
        Node(map["name" := Text("AIRFLOW_DB_URL"),
                 "valueFrom" := Node(map["secretKeyRef" := Node(map["name" := Text("airflow-db"),
                                                                    "key" := Text("connection")])])])])),
      "resources" := Node(map["requests" := Node(map["cpu" := Text("200m"), "memory" := Text("128Mi")])]),
      "volumeMounts" := Leaf(List([
        Node(map["mountPath" := Text("/dags"), "name" := Text("dags")]),
        Node(map["mountPath" := Text("/etc/pki/tls/certs/ca-bundle.crt"), "name" := Text("ca-bundle-pem"),
                 "readOnly" := Leaf(Bool(true)), "subPath" := Text("ca-bundle.pem")])])),
      "securityContext" := Node(map["allowPrivilegeEscalation" := Leaf(Bool(false)),
                                    "runAsGroup" := Leaf(Int(0)), "runAsUser" := Leaf(Int(50000))])])
  }

  const INIT_PATH: Path := ["workers", "extraInitContainers"]
  const ENV_PATH: Path := [ENV]

  function InitContainers(image: string): Value {
    List([KnauditContainer(image)])
  }

  function GlobalValue(rows: seq<GlobalRow>, key: string): Option<string> {
    if rows == [] then None else if rows[0].key == key then Some(rows[0].value) else GlobalValue(rows[1..], key)
  }

  // The global list of environment variables and then the team's.
  function Envs(store: Store): Result<seq<Tree>, EnrichError> {
    var global := GlobalValue(store.globals, ENV);
    if global == None then Err(NoRow)
    else if store.jsonList(global.value) == None then Err(BadList)
    else if store.teamEnv == None then Err(NoRow)
    else if store.jsonList(store.teamEnv.value) == None then Err(BadList)
    else Ok(store.jsonList(global.value).value + store.jsonList(store.teamEnv.value).value)
  }

  function AirflowLayer(store: Store, values: Kids): Layered {
    match GlobalValue(store.globals, KNAUDIT_IMAGE)
    case None => Err(NoRow)
    case Some(image) =>
      var withInit := Merge(values, SetPath(map[], INIT_PATH, Leaf(InitContainers(image))));
      match Envs(store)
      case Err(e) => Err(e)
      case Ok(envs) => Ok(if envs == [] then withInit else Merge(withInit, SetPath(map[], ENV_PATH, Leaf(List(envs)))))
  }

  function Layer(store: Store, enricher: Enricher, values: Kids): Layered {
    match enricher
    case Global => GlobalLayer(store, values)
    case Team => TeamLayer(store, values)
    case Airflow => AirflowLayer(store, values)
  }

  function Chain(store: Store, enrichers: seq<Enricher>, values: Kids): Layered {
    if enrichers == [] then Ok(values)
    else
      match Layer(store, enrichers[0], values)
      case Err(e) => Err(e)
      case Ok(next) => Chain(store, enrichers[1..], next)
  }

  // ---- The enrichers, which change the maps in place --------------------------------

  lemma EmptySetAll(kids: Kids)
    ensures SetAll(kids, []) == kids
  {
  }

  // The global values in a map of their own.
  method BatchGlobals(store: Store) returns (globalValues: ValueMap, err: Option<EnrichError>)
    ensures globalValues.Valid() && fresh(globalValues.Repr)
    ensures match GlobalSettings(store)
            case Err(e) => err == Some(e)
            case Ok(settings) => err == None && globalValues.View() == SetAll(map[], settings)
  {
    hide SetPath, SetAll, KeySplit, ParseString;
    ghost var parse := row => GlobalSetting(store, row);
    globalValues := new ValueMap();
    EmptySetAll(map[]);
    var i := 0;
    while i < |store.globals|
      invariant 0 <= i <= |store.globals|
      invariant globalValues.Valid() && fresh(globalValues.Repr)
      invariant Collect(parse, store.globals[..i]).Ok?
      invariant globalValues.View() == SetAll(map[], Collect(parse, store.globals[..i]).value)
    {
      ghost var settings := Collect(parse, store.globals[..i]).value;
      CollectStep(parse, store.globals, i);
      if Collect(parse, store.globals[..i + 1]).Err? { CollectStops(parse, store.globals, i + 1); }
      var row := store.globals[i];
      var text := if row.encrypted then store.decrypt(row.value) else Some(row.value);
      if text == None { return globalValues, Some(BadCipher); }
      var keys := KeySplitHandleEscape(row.key);
      match ParseString(store.syntax, text.value) {
        case Err(_) => return globalValues, Some(BadValue);
        case Ok(value) =>
          if keys == [] { return globalValues, Some(NoSegment); }
          SetAllSnoc(map[], settings, Setting(keys, value));
          SetChartValue(keys, value, globalValues);
      }
      i := i + 1;
    }
    assert store.globals[..i] == store.globals;
    err := None;
  }

  // An error leaves the values as they were: the batch is merged only when it is complete.
  method EnrichGlobal(store: Store, values: ValueMap) returns (err: Option<EnrichError>)
    requires values.Valid()
    modifies values.Repr
    ensures values.Valid() && fresh(values.Repr - old(values.Repr))
    ensures var layered := GlobalLayer(store, old(values.View()));
            if layered.Ok? then err == None && values.View() == layered.value
            else err == Some(layered.error) && values.View() == old(values.View())
  {
    var globalValues;
    globalValues, err := BatchGlobals(store);
    if err.Some? { return; }
    MergeMaps(values, globalValues);
  }

  // An error leaves the values with what the rows before the bad one have set.
  method EnrichTeam(store: Store, values: ValueMap) returns (err: Option<EnrichError>)
    requires values.Valid()
    modifies values.Repr
    ensures values.Valid() && fresh(values.Repr - old(values.Repr))
    ensures var layered := TeamLayer(store, old(values.View()));
            if layered.Ok? then err == None && values.View() == layered.value else err == Some(layered.error)
    ensures err.Some? ==>
              exists n: nat :: n < |store.team| && TeamUpTo(store, n).Ok? && TeamUpTo(store, n + 1) == Err(err.value)
                && values.View() == SetAll(old(values.View()), TeamUpTo(store, n).value)
  {
    hide SetPath, SetAll, KeySplit, ParseString;
    ghost var parse := row => TeamSetting(store, row);
    ghost var before := values.View();
    EmptySetAll(before);
    var i := 0;
    while i < |store.team|
      invariant 0 <= i <= |store.team|
      invariant values.Valid() && fresh(values.Repr - old(values.Repr))
      invariant TeamUpTo(store, i).Ok? && Collect(parse, store.team[..i]) == TeamUpTo(store, i)
      invariant values.View() == SetAll(before, TeamUpTo(store, i).value)
    {
      CollectStep(parse, store.team, i);
      assert TeamUpTo(store, i + 1) == Collect(parse, store.team[..i + 1]);
      if Collect(parse, store.team[..i + 1]).Err? { CollectStops(parse, store.team, i + 1); }
      if store.team[i].key !in UNSET_KEYS {
        err := ParseTeamValue(store, store.team[i], values, before, TeamUpTo(store, i).value);
        if err.Some? { return; }
      }
      i := i + 1;
    }
    assert store.team[..i] == store.team;
    err := None;
  }

  // parseTeamValue: set the value of one row, unless its key says to omit it.
  method ParseTeamValue(store: Store, row: TeamRow, values: ValueMap, ghost chart: Kids, ghost settings: seq<Setting>)
    returns (err: Option<EnrichError>)
    requires values.Valid() && row.key !in UNSET_KEYS
    requires Settable(settings) && values.View() == SetAll(chart, settings)
    modifies values.Repr
    ensures values.Valid() && fresh(values.Repr - old(values.Repr))
    ensures err.Some? ==> values.View() == SetAll(chart, settings)
    ensures match TeamSetting(store, row)
            case Err(e) => err == Some(e)
            case Ok(None) => err == None && values.View() == SetAll(chart, settings)
            case Ok(Some(s)) =>
              if s.path == [] then err == Some(NoSegment)
              else err == None && values.View() == SetAll(chart, settings + [s])
  {
    hide SetPath, SetAll, KeySplit, ParseString;
    var name, opts := ParseKey(row.key);
    if OMIT in opts { return None; }
    var keys := KeySplitHandleEscape(name);
    match ParseString(store.syntax, row.value) {
      case Err(_) => return Some(BadValue);
      case Ok(value) =>
        if keys == [] { return Some(NoSegment); }
        SetAllSnoc(chart, settings, Setting(keys, value));
        SetChartValue(keys, value, values);
    }
    err := None;
  }

  method EnrichAirflow(store: Store, values: ValueMap) returns (err: Option<EnrichError>)
    requires values.Valid()
    modifies values.Repr
    ensures values.Valid() && fresh(values.Repr - old(values.Repr))
    ensures var layered := AirflowLayer(store, old(values.View()));
            if layered.Ok? then err == None && values.View() == layered.value else err == Some(layered.error)
  {
    hide SetPath, Merge, InitContainers;
    var image := GlobalValue(store.globals, KNAUDIT_IMAGE);
    if image == None { return Some(NoRow); }
    var init := Build(SetPath(map[], INIT_PATH, Leaf(InitContainers(image.value))));
    MergeMaps(values, init);
    var global := GlobalValue(store.globals, ENV);
    if global == None { return Some(NoRow); }
    var g := store.jsonList(global.value);
    if g == None { return Some(BadList); }
    if store.teamEnv == None { return Some(NoRow); }
    var t := store.jsonList(store.teamEnv.value);
    if t == None { return Some(BadList); }
    var envs := g.value + t.value;
    if |envs| > 0 {
      var env := Build(SetPath(map[], ENV_PATH, Leaf(List(envs))));
      MergeMaps(values, env);
    }
    err := None;
  }

  // The enrichers in turn, up to the first error.
  method EnrichChain(store: Store, enrichers: seq<Enricher>, values: ValueMap) returns (err: Option<EnrichError>)
    requires values.Valid()
    modifies values.Repr
    ensures values.Valid() && fresh(values.Repr - old(values.Repr))
    ensures var layered := Chain(store, enrichers, old(values.View()));
            if layered.Ok? then err == None && values.View() == layered.value else err == Some(layered.error)
  {
    hide GlobalLayer, TeamLayer, AirflowLayer;
    ghost var all := Chain(store, enrichers, values.View());
    var i := 0;
    while i < |enrichers|
      invariant 0 <= i <= |enrichers|
      invariant values.Valid() && fresh(values.Repr - old(values.Repr))
      invariant Chain(store, enrichers[i..], values.View()) == all
    {
      assert enrichers[i..][1..] == enrichers[i + 1..];
      match enrichers[i] {
        case Global => err := EnrichGlobal(store, values);
        case Team => err := EnrichTeam(store, values);
        case Airflow => err := EnrichAirflow(store, values);
      }
      if err.Some? { return; }
      i := i + 1;
    }
    err := None;
  }
}
