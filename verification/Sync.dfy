// Syncing a team's Airflow: what a request writes to the team's values, and what it takes
// from them.
module Sync {
  import opened Wrappers
  import opened Structs
  import opened TeamStore
  import Typed = Values

  const AIRFLOW: ChartType := "airflow"

  const REPO := "dags.gitSync.repo"
  const BRANCH := "dags.gitSync.branch"
  const IMAGE := "images.airflow.repository"
  const TAG := "images.airflow.tag"
  const FERNET := "fernetKey,omit"
  const SECRET := "webserverSecretKey,omit"
  const EGRESS := "restrictEgress,omit"
  const ACCESS := "apiAccess,omit"
  const GENERATED := ["env", "webserver.env", "webserver.serviceAccount.name", "scheduler.serviceAccount.name",
                      "workers.serviceAccount.name", "workers.labels"]

  // What the user configures. No repo asks for a resync of what is stored.
  datatype Request = Request(repo: string, branch: string, image: string, tag: string, egress: bool, access: bool)

  // What a sync generates: two secrets, should there be none, and parts of the chart.
  datatype Made = Made(fernet: string, secret: string, env: string, labels: string, webEnv: bool -> string)

  datatype AirflowValues = AirflowValues(config: Request, fernet: string, secret: string, env: string,
                                         webEnv: string, labels: string, account: string)

  datatype SyncError = NoRow | BadFlag | BadKey | DatabaseError

  // Where the database refuses: in the transaction, or after so many of the single inserts.
  datatype Faults = Faults(tx: Option<nat>, singles: nat)

  // ---- What a sync takes from the store ---------------------------------------------

  function Flag(rows: seq<Row>, team: string, key: string, otherwise: bool): Result<bool, SyncError> {
    match NewestAnywhere(rows, team, key)
    case None => Ok(otherwise)
    case Some(row) =>
      match Typed.ParseBool(row.value)
      case None => Err(BadFlag)
      case Some(b) => Ok(b)
  }

  function Resolve(rows: seq<Row>, team: string, req: Request): Result<Request, SyncError> {
    if req.repo != "" then Ok(req)
    else
      var repo, branch := NewestAnywhere(rows, team, REPO), NewestAnywhere(rows, team, BRANCH);
      var egress, access := Flag(rows, team, EGRESS, req.egress), Flag(rows, team, ACCESS, req.access);
      if repo == None || branch == None then Err(NoRow)
      else if egress.Err? || access.Err? then Err(BadFlag)
      else
        Ok(req.(repo := repo.value.value, branch := branch.value.value, egress := egress.value, access := access.value))
  }

  function Password(rows: seq<Row>, team: string, key: string, made: string): Result<string, SyncError> {
    match NewestAnywhere(rows, team, key)
    case None => Ok(made)
    case Some(row) => if row.chart == AIRFLOW && row.value != "" then Ok(row.value) else Err(BadKey)
  }

  function Merged(rows: seq<Row>, team: string, req: Request, made: Made): Result<AirflowValues, SyncError> {
    var config := Resolve(rows, team, req);
    var fernet, secret := Password(rows, team, FERNET, made.fernet), Password(rows, team, SECRET, made.secret);
    if config.Err? then Err(config.error)
    else if fernet.Err? then Err(fernet.error)
    else if secret.Err? then Err(secret.error)
    else Ok(AirflowValues(config.value, fernet.value, secret.value, made.env, made.webEnv(config.value.access),
                          made.labels, team))
  }

  // ---- What it writes ---------------------------------------------------------------

  // The struct's fields, those of the configuration first.
  function ConfigFields(team: string, c: Request): seq<Field> {
    [Field("", Text(team)), Field(REPO, Text(c.repo)), Field(BRANCH, Text(c.branch)), Field(IMAGE, Text(c.image)),
     Field(TAG, Text(c.tag)), Field("", Other), Field("", Other)]
  }

  function GeneratedFields(v: AirflowValues): seq<Field> {
    [Field("", Text(v.fernet)), Field("", Text(v.secret)), Field(GENERATED[0], Text(v.env)),
     Field(GENERATED[1], Text(v.webEnv)), Field(GENERATED[2], Text(v.account)), Field(GENERATED[3], Text(v.account)),
     Field(GENERATED[4], Text(v.account)), Field(GENERATED[5], Text(v.labels))]
  }

  function AllFields(v: AirflowValues): seq<Field> {
    ConfigFields(v.account, v.config) + GeneratedFields(v)
  }

  // The values inserted one by one after the transaction.
  function Single(v: AirflowValues, i: nat): Values {
    if i == 0 then map[FERNET := v.fernet]
    else if i == 1 then map[SECRET := v.secret]
    else if i == 2 then map[EGRESS := Typed.PrintBool(v.config.egress)]
    else if i == 3 then map[ACCESS := Typed.PrintBool(v.config.access)]
    else map[]
  }

  function Singles(v: AirflowValues, n: nat): Values {
    if n == 0 then map[] else Singles(v, n - 1) + Single(v, n - 1)
  }

  predicate Refused(faults: Faults, values: Values) {
    faults.tx.Some? && faults.tx.value <= |values|
  }

  ghost predicate Synced(lists: Lists, before: seq<Row>, after: seq<Row>, team: string, req: Request, made: Made,
                         faults: Faults)
  {
    match Merged(before, team, req, made)
    case Err(_) => after == before
    case Ok(v) =>
      match ChartValues(lists, AllFields(v))
      case Err(_) => after == before
      case Ok(values) =>
        if Refused(faults, values) then after == before
        else Wrote(before, after, team, AIRFLOW, values + Singles(v, faults.singles))
  }

  // Everything was there, and the database took it all.
  predicate Completes(lists: Lists, rows: seq<Row>, team: string, req: Request, made: Made, faults: Faults) {
    && Merged(rows, team, req, made).Ok?
    && var values := ChartValues(lists, AllFields(Merged(rows, team, req, made).value));
       values.Ok? && !Refused(faults, values.value) && faults.singles > 3
  }

  // The request, which merging fills in.
  class Configurable {
    var repo: string
    var branch: string
    var image: string
    var tag: string
    var egress: bool
    var access: bool

    constructor (r: Request)
      ensures AsRequest() == r
    {
      repo, branch, image, tag, egress, access := r.repo, r.branch, r.image, r.tag, r.egress, r.access;
    }

    function AsRequest(): Request
      reads this
    {
      Request(repo, branch, image, tag, egress, access)
    }
  }

  method GetOrGeneratePassword(repo: Repo, team: string, key: string, made: string)
    returns (r: Result<string, SyncError>)
    ensures r == Password(repo.rows, team, key, made)
  {
    var value := repo.TeamValueGet(team, key);
    if value == None { return Ok(made); }
    if value.value.chart == AIRFLOW && value.value.value != "" { return Ok(value.value.value); }
    r := Err(BadKey);
  }

  method GetFlag(repo: Repo, team: string, key: string, otherwise: bool) returns (r: Result<bool, SyncError>)
    ensures r == Flag(repo.rows, team, key, otherwise)
  {
    var row := repo.TeamValueGet(team, key);
    if row == None { return Ok(otherwise); }
    var b := Typed.ParseBool(row.value.value);
    r := if b == None then Err(BadFlag) else Ok(b.value);
  }

  // Fills a request without a repo from the store. After an error the request may be half
  // filled in.
  method FillIn(repo: Repo, team: string, c: Configurable) returns (err: Option<SyncError>)
    modifies c
    ensures var r := Resolve(repo.rows, team, old(c.AsRequest()));
            if r.Ok? then err == None && c.AsRequest() == r.value else err == Some(r.error)
  {
    if c.repo == "" {
      var dagRepo := repo.TeamValueGet(team, REPO);
      if dagRepo == None { return Some(NoRow); }
      c.repo := dagRepo.value.value;
      var dagRepoBranch := repo.TeamValueGet(team, BRANCH);
      if dagRepoBranch == None { return Some(NoRow); }
      c.branch := dagRepoBranch.value.value;
      var egress := GetFlag(repo, team, EGRESS, c.egress);
      if egress.Err? { return Some(BadFlag); }
      c.egress := egress.value;
      var access := GetFlag(repo, team, ACCESS, c.access);
      if access.Err? { return Some(BadFlag); }
      c.access := access.value;
    }
    err := None;
  }

  method MergeAirflowValues(repo: Repo, team: string, c: Configurable, made: Made)
    returns (r: Result<AirflowValues, SyncError>)
    modifies c
    ensures r == Merged(repo.rows, team, old(c.AsRequest()), made)
    ensures r.Ok? ==> c.AsRequest() == r.value.config
  {
    var err := FillIn(repo, team, c);
    if err.Some? { return Err(err.value); }
    var fernet := GetOrGeneratePassword(repo, team, FERNET, made.fernet);
    if fernet.Err? { return Err(fernet.error); }
    var secret := GetOrGeneratePassword(repo, team, SECRET, made.secret);
    if secret.Err? { return Err(secret.error); }
    r := Ok(AirflowValues(c.AsRequest(), fernet.value, secret.value, made.env, made.webEnv(c.access), made.labels,
                          team));
  }

  // syncAirflow up to where it turns to the cluster.
  method SyncAirflow(repo: Repo, lists: Lists, team: string, c: Configurable, made: Made, faults: Faults)
    returns (ok: bool)
    modifies repo, c
    ensures Synced(lists, old(repo.rows), repo.rows, team, old(c.AsRequest()), made, faults)
    ensures ok <==> Completes(lists, old(repo.rows), team, old(c.AsRequest()), made, faults)
  {
    hide Merged, Wrote, AllFields;
    var merged := MergeAirflowValues(repo, team, c, made);
    if merged.Err? { return false; }
    var v := merged.value;
    var chartValues := CreateChartValues(lists, AllFields(v));
    if chartValues.Err? { return false; }
    ok := repo.HelmChartValuesInsert(AIRFLOW, chartValues.value, team, faults.tx);
    if !ok { return; }
    ok := InsertSingles(repo, team, v, faults.singles, old(repo.rows), chartValues.value);
  }

  method InsertMore(repo: Repo, team: string, key: string, value: string, fails: bool, ghost before: seq<Row>,
                    ghost values: Values)
    returns (ok: bool)
    requires Wrote(before, repo.rows, team, AIRFLOW, values)
    modifies repo
    ensures ok == !fails
    ensures Wrote(before, repo.rows, team, AIRFLOW, if fails then values else values + map[key := value])
  {
    ghost var middle := repo.rows;
    ok := repo.TeamValueInsert(team, AIRFLOW, key, value, fails);
    if ok { WroteMore(before, middle, repo.rows, team, AIRFLOW, values, map[key := value]); }
  }

  method InsertSingles(repo: Repo, team: string, v: AirflowValues, singles: nat, ghost before: seq<Row>,
                       ghost values: Values)
    returns (ok: bool)
    requires Wrote(before, repo.rows, team, AIRFLOW, values)
    modifies repo
    ensures Wrote(before, repo.rows, team, AIRFLOW, values + Singles(v, singles))
    ensures ok <==> singles > 3
  {
    SinglesAdd(values, v, 0);
    SinglesAdd(values, v, 1);
    SinglesAdd(values, v, 2);
    SinglesAdd(values, v, 3);
    if singles > 4 { SinglesEnd(v, singles); }
    hide Wrote, Singles;
    ok := InsertMore(repo, team, FERNET, v.fernet, singles <= 0, before, values + Singles(v, 0));
    if !ok { return; }
    ok := InsertMore(repo, team, SECRET, v.secret, singles <= 1, before, values + Singles(v, 1));
    if !ok { return; }
    ok := InsertMore(repo, team, EGRESS, Typed.PrintBool(v.config.egress), singles <= 2, before,
                     values + Singles(v, 2));
    if !ok { return; }
    ok := InsertMore(repo, team, ACCESS, Typed.PrintBool(v.config.access), singles <= 3, before,
                     values + Singles(v, 3));
  }

  lemma SinglesAdd(values: Values, v: AirflowValues, n: nat)
    ensures values + Singles(v, n + 1) == values + Singles(v, n) + Single(v, n)
    ensures values + Singles(v, 0) == values
  {
  }

  lemma SinglesEnd(v: AirflowValues, n: nat)
    requires n >= 4
    ensures Singles(v, n) == Singles(v, 4)
  {
    if n > 4 { assert Singles(v, n) == Singles(v, n - 1) + map[]; }
  }
}
