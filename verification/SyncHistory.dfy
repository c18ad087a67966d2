// Histories of syncs and deletions: what a team has set sticks, and a resync changes no
// choice and no key.
module SyncHistory {
  import opened Wrappers
  import opened Structs
  import opened TeamStore
  import opened Sync
  import Typed = Values

  // ---- What one sync writes, key by key ---------------------------------------------

  predicate IsConfigKey(key: string) {
    key == REPO || key == BRANCH || key == IMAGE || key == TAG
  }

  function ConfigText(c: Request, key: string): string
    requires IsConfigKey(key)
  {
    if key == REPO then c.repo else if key == BRANCH then c.branch else if key == IMAGE then c.image else c.tag
  }

  predicate IsSingleKey(key: string) {
    key == FERNET || key == SECRET || key == EGRESS || key == ACCESS
  }

  lemma ConfigKeysApart()
    ensures REPO != BRANCH && REPO != IMAGE && REPO != TAG && BRANCH != IMAGE && BRANCH != TAG && IMAGE != TAG
    ensures FERNET != SECRET && FERNET != EGRESS && FERNET != ACCESS && SECRET != EGRESS && SECRET != ACCESS
    ensures EGRESS != ACCESS
  {
    assert BRANCH[0] == 'd' && IMAGE[0] == 'i' && TAG[0] == 'i';
    assert FERNET[0] == 'f' && ACCESS[0] == 'a' && EGRESS[0] == 'r' && SECRET[0] == 'w';
  }

  // Only the keys of single inserts carry options.
  lemma GeneratedApart(i: nat)
    requires i < |GENERATED|
    ensures !IsConfigKey(GENERATED[i]) && !IsSingleKey(GENERATED[i]) && GENERATED[i] != ""
  {
    var g := GENERATED[i];
    assert g[0] == 'e' || g[0] == 'w' || g[0] == 's';
    assert REPO[0] == 'd' && BRANCH[0] == 'd' && IMAGE[0] == 'i' && TAG[0] == 'i';
    assert FERNET[0] == 'f' && ACCESS[0] == 'a' && EGRESS[0] == 'r';
    assert |SECRET| == 23;
  }

  lemma GeneratedDistinct()
    ensures forall i, j | 0 <= i < j < |GENERATED| :: GENERATED[i] != GENERATED[j]
  {
  }

  lemma ConfigTags(team: string, r: Request)
    ensures var c := ConfigFields(team, r);
            TagsDistinct(c)
            && forall i | 0 <= i < |c| && c[i].tag != "" :: IsConfigKey(c[i].tag) && c[i].value.Text?
  {
    ConfigKeysApart();
  }

  lemma GeneratedTags(v: AirflowValues)
    ensures var g := GeneratedFields(v);
            TagsDistinct(g)
            && forall i | 0 <= i < |g| && g[i].tag != "" ::
                 !IsConfigKey(g[i].tag) && !IsSingleKey(g[i].tag) && g[i].value.Text?
  {
    var g := GeneratedFields(v);
    GeneratedDistinct();
    forall i | 2 <= i < |g| ensures g[i].tag == GENERATED[i - 2] && !IsConfigKey(g[i].tag) && !IsSingleKey(g[i].tag) {
      GeneratedApart(i - 2);
    }
    hide IsConfigKey, IsSingleKey;
  }

  lemma FieldsApart(v: AirflowValues)
    ensures TagsDistinct(AllFields(v))
    ensures forall i | 0 <= i < |AllFields(v)| :: !IsSingleKey(AllFields(v)[i].tag)
    ensures forall i | 0 <= i < |AllFields(v)| :: AllFields(v)[i].tag != "" ==> AllFields(v)[i].value.Text?
  {
    ConfigTags(v.account, v.config);
    GeneratedTags(v);
    ConfigNotSingle();
    hide ConfigFields, GeneratedFields, IsConfigKey, IsSingleKey;
  }

  lemma ConfigNotSingle()
    ensures forall k | IsConfigKey(k) :: !IsSingleKey(k)
    ensures !IsSingleKey("")
  {
    assert REPO[0] == 'd' && BRANCH[0] == 'd' && IMAGE[0] == 'i' && TAG[0] == 'i';
    assert FERNET[0] == 'f' && ACCESS[0] == 'a' && EGRESS[0] == 'r' && SECRET[0] == 'w';
  }

  lemma {:induction false} TextsWrite(lists: Lists, fields: seq<Field>)
    requires forall i | 0 <= i < |fields| :: fields[i].tag != "" ==> fields[i].value.Text?
    ensures ChartValues(lists, fields).Ok?
    decreases |fields|
  {
    if fields != [] { TextsWrite(lists, fields[..|fields| - 1]); }
  }

  function Written(lists: Lists, v: AirflowValues, n: nat): Values {
    match ChartValues(lists, AllFields(v))
    case Err(_) => map[]
    case Ok(values) => values + Singles(v, n)
  }

  // A configured text is written exactly when it is not empty.
  lemma ConfigWritten(lists: Lists, v: AirflowValues, n: nat, key: string)
    requires IsConfigKey(key)
    ensures ChartValues(lists, AllFields(v)).Ok?
    ensures var m, text := Written(lists, v, n), ConfigText(v.config, key);
            if text == "" then key !in m else key in m && m[key] == text
  {
    FieldsApart(v);
    TextsWrite(lists, AllFields(v));
    ConfigKeysApart();
    ConfigNotSingle();
    SinglesKeys(v, n);
    var i := if key == REPO then 1 else if key == BRANCH then 2 else if key == IMAGE then 3 else 4;
    assert AllFields(v)[i] == Field(key, Text(ConfigText(v.config, key)));
    hide AllFields, IsConfigKey, IsSingleKey, ConfigText;
    ChartValuesAt(lists, AllFields(v), i);
  }

  lemma {:induction false} SinglesKeys(v: AirflowValues, n: nat)
    ensures forall k | k in Singles(v, n) :: IsSingleKey(k)
    ensures n > 0 ==> FERNET in Singles(v, n) && Singles(v, n)[FERNET] == v.fernet
    ensures n > 1 ==> SECRET in Singles(v, n) && Singles(v, n)[SECRET] == v.secret
    ensures n > 2 ==> EGRESS in Singles(v, n) && Singles(v, n)[EGRESS] == Typed.PrintBool(v.config.egress)
    ensures n > 3 ==> ACCESS in Singles(v, n) && Singles(v, n)[ACCESS] == Typed.PrintBool(v.config.access)
    ensures n <= 0 ==> FERNET !in Singles(v, n)
    ensures n <= 1 ==> SECRET !in Singles(v, n)
    ensures n <= 2 ==> EGRESS !in Singles(v, n)
    ensures n <= 3 ==> ACCESS !in Singles(v, n)
  {
    ConfigKeysApart();
    if n > 0 { SinglesKeys(v, n - 1); }
  }

  lemma SingleWritten(lists: Lists, v: AirflowValues, n: nat, key: string)
    requires IsSingleKey(key)
    ensures var m, s := Written(lists, v, n), Singles(v, n);
            (key in m <==> key in s) && (key in s ==> m[key] == s[key])
  {
    FieldsApart(v);
    TextsWrite(lists, AllFields(v));
    ChartValuesTags(lists, AllFields(v));
  }

  // ---- One operation ------------------------------------------------------------------

  datatype Op = Sync(team: string, req: Request, made: Made, faults: Faults) | Delete(team: string)

  ghost predicate OpStep(lists: Lists, before: seq<Row>, after: seq<Row>, op: Op) {
    match op
    case Sync(team, req, made, faults) => Synced(lists, before, after, team, req, made, faults)
    case Delete(team) => after == WithoutChart(before, team, AIRFLOW)
  }

  // A sync that writes: the store has what it needs, and the transaction goes through.
  predicate Commits(lists: Lists, before: seq<Row>, op: Op) {
    op.Sync?
    && Merged(before, op.team, op.req, op.made).Ok?
    && var v := Merged(before, op.team, op.req, op.made).value;
       ChartValues(lists, AllFields(v)).Ok? && !Refused(op.faults, ChartValues(lists, AllFields(v)).value)
  }

  function Stored(rows: seq<Row>, team: string, key: string): Option<string> {
    Newest(rows, team, AIRFLOW, key)
  }

  lemma SyncWrites(lists: Lists, before: seq<Row>, after: seq<Row>, op: Op)
    requires op.Sync? && OpStep(lists, before, after, op)
    ensures !Commits(lists, before, op) ==> after == before
    ensures Commits(lists, before, op) ==>
              Wrote(before, after, op.team, AIRFLOW,
                    Written(lists, Merged(before, op.team, op.req, op.made).value, op.faults.singles))
  {
  }

  lemma OnlyAirflowStays(lists: Lists, before: seq<Row>, after: seq<Row>, op: Op)
    requires OpStep(lists, before, after, op) && OnlyChart(before, AIRFLOW)
    ensures OnlyChart(after, AIRFLOW)
  {
    if op.Sync? {
      SyncWrites(lists, before, after, op);
      hide Commits, Written, Merged;
    } else {
      DeleteKeepsChart(before, op.team);
    }
  }

  lemma {:induction false} DeleteKeepsChart(rows: seq<Row>, team: string)
    requires OnlyChart(rows, AIRFLOW)
    ensures OnlyChart(WithoutChart(rows, team, AIRFLOW), AIRFLOW)
    decreases |rows|
  {
    if rows != [] { DeleteKeepsChart(rows[..|rows| - 1], team); }
  }

  // What the request itself sets: a resync sets neither repo nor branch.
  function Asked(req: Request, key: string): string
    requires IsConfigKey(key)
  {
    if key == BRANCH && req.repo == "" then "" else ConfigText(req, key)
  }

  // One operation on a setting: a deletion clears it, a sync that commits sets it if it asks
  // for something, and otherwise it stays.
  lemma SettingStep(lists: Lists, before: seq<Row>, after: seq<Row>, op: Op, team: string, key: string)
    requires OpStep(lists, before, after, op) && OnlyChart(before, AIRFLOW) && IsConfigKey(key)
    ensures Stored(after, team, key) ==
            if op.team != team then Stored(before, team, key)
            else if op.Delete? then None
            else if Commits(lists, before, op) && Asked(op.req, key) != "" then Some(Asked(op.req, key))
            else Stored(before, team, key)
  {
    if op.Delete? {
      NewestOfDelete(before, op.team, AIRFLOW, team, AIRFLOW, key);
    } else {
      SyncWrites(lists, before, after, op);
      if Commits(lists, before, op) {
        var v := Merged(before, op.team, op.req, op.made).value;
        ConfigWritten(lists, v, op.faults.singles, key);
        AnywhereIsNewest(before, AIRFLOW, op.team, REPO);
        AnywhereIsNewest(before, AIRFLOW, op.team, BRANCH);
        ConfigKeysApart();
        hide Written, Flag, Password, Commits, Newest, NewestAnywhere, OnlyChart;
      }
    }
  }

  // ---- Histories -------------------------------------------------------------------------

  // The store before each operation and after the last.
  ghost predicate IsHistory(lists: Lists, states: seq<seq<Row>>, ops: seq<Op>) {
    && |states| == |ops| + 1
    && OnlyChart(states[0], AIRFLOW)
    && forall i | 0 <= i < |ops| :: OpStep(lists, states[i], states[i + 1], ops[i])
  }

  lemma {:induction false} OnlyAirflow(lists: Lists, states: seq<seq<Row>>, ops: seq<Op>, n: nat)
    requires IsHistory(lists, states, ops) && n <= |ops|
    ensures OnlyChart(states[n], AIRFLOW)
  {
    if n > 0 {
      OnlyAirflow(lists, states, ops, n - 1);
      OnlyAirflowStays(lists, states[n - 1], states[n], ops[n - 1]);
    }
  }

  // The last non-empty text that a sync of the team set, since its chart was last deleted.
  // Before the history, what was stored.
  function LastAsked(lists: Lists, states: seq<seq<Row>>, ops: seq<Op>, n: nat, team: string, key: string)
    : Option<string>
    requires |states| == |ops| + 1 && n <= |ops| && IsConfigKey(key)
  {
    if n == 0 then Stored(states[0], team, key)
    else
      var op := ops[n - 1];
      if op.team == team && op.Delete? then None
      else if op.team == team && Commits(lists, states[n - 1], op) && Asked(op.req, key) != "" then
        Some(Asked(op.req, key))
      else LastAsked(lists, states, ops, n - 1, team, key)
  }

  // Settings are sticky over every history.
  lemma {:induction false} Sticky(lists: Lists, states: seq<seq<Row>>, ops: seq<Op>, n: nat, team: string, key: string)
    requires IsHistory(lists, states, ops) && n <= |ops| && IsConfigKey(key)
    ensures Stored(states[n], team, key) == LastAsked(lists, states, ops, n, team, key)
  {
    hide Commits, Asked, Stored, IsConfigKey, OpStep, OnlyChart;
    if n > 0 {
      Sticky(lists, states, ops, n - 1, team, key);
      OnlyAirflow(lists, states, ops, n - 1);
      var op := ops[n - 1];
      assert OpStep(lists, states[n - 1], states[n], op);
      SettingStep(lists, states[n - 1], states[n], op, team, key);
      assert LastAsked(lists, states, ops, n, team, key) ==
             if op.team == team && op.Delete? then None
             else if op.team == team && Commits(lists, states[n - 1], op) && Asked(op.req, key) != "" then
               Some(Asked(op.req, key))
             else LastAsked(lists, states, ops, n - 1, team, key);
    }
  }

  // Read back into the configuration, each field is that, or empty if there is none.
  lemma StickyReads(lists: Lists, states: seq<seq<Row>>, ops: seq<Op>, n: nat, team: string, key: string,
                    values: Values, f: Field)
    requires IsHistory(lists, states, ops) && n <= |ops| && IsConfigKey(key)
    requires forall k :: (if k in values then Some(values[k]) else None) == Newest(states[n], team, AIRFLOW, k)
    requires f.tag == key && f.value.Text?
    ensures var last := LastAsked(lists, states, ops, n, team, key);
            ReadField(lists, f, values) == Ok(Field(key, Text(if last.Some? then last.value else "")))
  {
    Sticky(lists, states, ops, n, team, key);
    assert key != "" by { assert REPO != "" && BRANCH != "" && IMAGE != "" && TAG != ""; }
    assert Stored(states[n], team, key) == if key in values then Some(values[key]) else None;
  }

  // ---- Keys -----------------------------------------------------------------------------

  lemma KeyStep(lists: Lists, before: seq<Row>, after: seq<Row>, op: Op, team: string, key: string)
    requires OpStep(lists, before, after, op) && OnlyChart(before, AIRFLOW) && (key == FERNET || key == SECRET)
    requires !(op.Delete? && op.team == team)
    ensures Stored(before, team, key).Some? ==> Stored(after, team, key) == Stored(before, team, key)
    ensures Stored(before, team, key) == None && Stored(after, team, key).Some? ==>
              op.team == team && op.Sync?
              && Stored(after, team, key).value == if key == FERNET then op.made.fernet else op.made.secret
  {
    if op.Delete? {
      NewestOfDelete(before, op.team, AIRFLOW, team, AIRFLOW, key);
    } else {
      SyncWrites(lists, before, after, op);
      if Commits(lists, before, op) {
        var v := Merged(before, op.team, op.req, op.made).value;
        SingleWritten(lists, v, op.faults.singles, key);
        SinglesKeys(v, op.faults.singles);
        AnywhereIsNewest(before, AIRFLOW, op.team, key);
        ConfigKeysApart();
        hide Written, Flag, Resolve, Commits, Newest, NewestAnywhere, OnlyChart;
      }
    }
  }

  // Between deletions a key keeps the value it was first given.
  lemma {:induction false} KeysKept(lists: Lists, states: seq<seq<Row>>, ops: seq<Op>, m: nat, n: nat, team: string,
                                    key: string)
    requires IsHistory(lists, states, ops) && m <= n <= |ops| && (key == FERNET || key == SECRET)
    requires forall i | m <= i < n :: !(ops[i].Delete? && ops[i].team == team)
    requires Stored(states[m], team, key).Some?
    ensures Stored(states[n], team, key) == Stored(states[m], team, key)
  {
    if m < n {
      KeysKept(lists, states, ops, m, n - 1, team, key);
      OnlyAirflow(lists, states, ops, n - 1);
      KeyStep(lists, states[n - 1], states[n], ops[n - 1], team, key);
    }
  }

  // ---- Resyncs ------------------------------------------------------------------------------

  const RESYNC := Request("", "", "", "", false, false)

  // A resync changes no choice: not the four settings, and not what the flags mean.
  lemma ResyncKeeps(lists: Lists, before: seq<Row>, after: seq<Row>, op: Op, team: string, key: string)
    requires OpStep(lists, before, after, op) && OnlyChart(before, AIRFLOW) && op.Sync? && op.req == RESYNC
    ensures IsConfigKey(key) ==> Stored(after, team, key) == Stored(before, team, key)
    ensures key == EGRESS || key == ACCESS ==> Flag(after, team, key, false) == Flag(before, team, key, false)
  {
    if IsConfigKey(key) {
      assert Asked(RESYNC, key) == "";
      SettingStep(lists, before, after, op, team, key);
    }
    if key == EGRESS || key == ACCESS {
      OnlyAirflowStays(lists, before, after, op);
      FlagStep(lists, before, after, op, team, key);
    }
  }

  lemma ResyncFlags(before: seq<Row>, op: Op)
    requires op.Sync? && op.req == RESYNC && Merged(before, op.team, op.req, op.made).Ok?
    ensures var c := Merged(before, op.team, op.req, op.made).value.config;
            Flag(before, op.team, EGRESS, false) == Ok(c.egress) && Flag(before, op.team, ACCESS, false) == Ok(c.access)
  {
    assert RESYNC.repo == "";
  }

  lemma FlagStep(lists: Lists, before: seq<Row>, after: seq<Row>, op: Op, team: string, key: string)
    requires OpStep(lists, before, after, op) && OnlyChart(before, AIRFLOW) && OnlyChart(after, AIRFLOW)
    requires op.Sync? && op.req == RESYNC && (key == EGRESS || key == ACCESS)
    ensures Flag(after, team, key, false) == Flag(before, team, key, false)
  {
    SyncWrites(lists, before, after, op);
    if Commits(lists, before, op) {
      var v := Merged(before, op.team, op.req, op.made).value;
      SingleWritten(lists, v, op.faults.singles, key);
      SinglesKeys(v, op.faults.singles);
      AnywhereIsNewest(before, AIRFLOW, team, key);
      AnywhereIsNewest(after, AIRFLOW, team, key);
      ConfigKeysApart();
      ResyncFlags(before, op);
      assert Typed.ParseBool(Typed.PrintBool(true)) == Some(true);
      assert Typed.ParseBool(Typed.PrintBool(false)) == Some(false);
      hide Written, Merged, Commits, Newest, NewestAnywhere, OnlyChart, Typed.ParseBool, Typed.PrintBool;
    }
  }

  // The store of a team that only syncs have written: flags parse, keys are not empty, and
  // with a branch there is a repo.
  ghost predicate Sound(rows: seq<Row>, team: string) {
    && (forall key | key == EGRESS || key == ACCESS :: Flag(rows, team, key, false).Ok?)
    && (forall key | key == FERNET || key == SECRET :: Stored(rows, team, key) != Some(""))
    && (Stored(rows, team, BRANCH).Some? ==> Stored(rows, team, REPO).Some?)
  }

  // A resync finds what it needs exactly when there is a branch.
  lemma ResyncNeedsBranch(rows: seq<Row>, team: string, made: Made)
    requires OnlyChart(rows, AIRFLOW) && Sound(rows, team)
    ensures Merged(rows, team, RESYNC, made).Ok? <==> Stored(rows, team, BRANCH).Some?
  {
    AnywhereIsNewest(rows, AIRFLOW, team, REPO);
    AnywhereIsNewest(rows, AIRFLOW, team, BRANCH);
    AnywhereIsNewest(rows, AIRFLOW, team, FERNET);
    AnywhereIsNewest(rows, AIRFLOW, team, SECRET);
    hide Newest, NewestAnywhere, OnlyChart;
    assert Flag(rows, team, EGRESS, false).Ok? && Flag(rows, team, ACCESS, false).Ok?;
    assert Stored(rows, team, FERNET) != Some("") && Stored(rows, team, SECRET) != Some("");
    assert Password(rows, team, FERNET, made.fernet).Ok? && Password(rows, team, SECRET, made.secret).Ok?;
    assert RESYNC.repo == "";
  }

  lemma SoundStays(lists: Lists, before: seq<Row>, after: seq<Row>, op: Op, team: string)
    requires OpStep(lists, before, after, op) && OnlyChart(before, AIRFLOW) && OnlyChart(after, AIRFLOW)
    requires op.Sync? ==> op.made.fernet != "" && op.made.secret != ""
    requires Sound(before, team)
    ensures Sound(after, team)
  {
    forall key | key == EGRESS || key == ACCESS ensures Flag(after, team, key, false).Ok? {
      assert Flag(before, team, key, false).Ok?;
      FlagStaysOk(lists, before, after, op, team, key);
    }
    forall key | key == FERNET || key == SECRET ensures Stored(after, team, key) != Some("") {
      assert Stored(before, team, key) != Some("");
      if op.Delete? && op.team == team {
        NewestOfDelete(before, op.team, AIRFLOW, team, AIRFLOW, key);
      } else {
        KeyStep(lists, before, after, op, team, key);
      }
    }
    SettingStep(lists, before, after, op, team, BRANCH);
    SettingStep(lists, before, after, op, team, REPO);
    ConfigKeysApart();
    hide Flag, Commits, Stored, OpStep;
  }

  lemma FlagStaysOk(lists: Lists, before: seq<Row>, after: seq<Row>, op: Op, team: string, key: string)
    requires OpStep(lists, before, after, op) && OnlyChart(before, AIRFLOW) && OnlyChart(after, AIRFLOW)
    requires key == EGRESS || key == ACCESS
    requires Flag(before, team, key, false).Ok?
    ensures Flag(after, team, key, false).Ok?
  {
    AnywhereIsNewest(before, AIRFLOW, team, key);
    AnywhereIsNewest(after, AIRFLOW, team, key);
    if op.Delete? {
      NewestOfDelete(before, op.team, AIRFLOW, team, AIRFLOW, key);
    } else {
      SyncWrites(lists, before, after, op);
      if Commits(lists, before, op) {
        var v := Merged(before, op.team, op.req, op.made).value;
        SingleWritten(lists, v, op.faults.singles, key);
        SinglesKeys(v, op.faults.singles);
        assert Typed.ParseBool(Typed.PrintBool(true)) == Some(true);
        assert Typed.ParseBool(Typed.PrintBool(false)) == Some(false);
        hide Written, Merged, Commits, Newest, NewestAnywhere, OnlyChart, Typed.ParseBool, Typed.PrintBool;
      }
    }
  }

  lemma {:induction false} SoundAlways(lists: Lists, states: seq<seq<Row>>, ops: seq<Op>, n: nat, team: string)
    requires IsHistory(lists, states, ops) && n <= |ops| && Sound(states[0], team)
    requires forall i | 0 <= i < |ops| :: ops[i].Sync? ==> ops[i].made.fernet != "" && ops[i].made.secret != ""
    ensures Sound(states[n], team)
  {
    if n > 0 {
      SoundAlways(lists, states, ops, n - 1, team);
      OnlyAirflow(lists, states, ops, n - 1);
      OnlyAirflow(lists, states, ops, n);
      hide Sound, OnlyChart;
      SoundStays(lists, states[n - 1], states[n], ops[n - 1], team);
    }
  }

  // Over every history from a sound store, a resync finds what it needs exactly when some
  // sync has set a branch since the chart was last deleted.
  lemma ResyncExactly(lists: Lists, states: seq<seq<Row>>, ops: seq<Op>, n: nat, team: string, made: Made)
    requires IsHistory(lists, states, ops) && n <= |ops| && Sound(states[0], team)
    requires forall i | 0 <= i < |ops| :: ops[i].Sync? ==> ops[i].made.fernet != "" && ops[i].made.secret != ""
    ensures Merged(states[n], team, RESYNC, made).Ok? <==> LastAsked(lists, states, ops, n, team, BRANCH).Some?
  {
    SoundAlways(lists, states, ops, n, team);
    OnlyAirflow(lists, states, ops, n);
    hide Sound, OnlyChart, IsHistory, LastAsked, Merged;
    ResyncNeedsBranch(states[n], team, made);
    Sticky(lists, states, ops, n, team, BRANCH);
  }

  // The requests the program registers: the user's form, on which the repo is required and a
  // blank branch means main, and the empty request of a team update, an image update or the
  // administrator.
  function FormRequest(repo: string, branch: string, image: string, tag: string, access: bool): Request {
    Request(repo, if branch == "" then "main" else branch, image, tag, false, access)
  }

  ghost predicate IsRegistered(req: Request) {
    req == RESYNC
    || exists repo, branch, image, tag, access :: repo != "" && req == FormRequest(repo, branch, image, tag, access)
  }

  // A registered request sets both repo and branch or neither.
  lemma {:induction false} RepoWithBranch(lists: Lists, states: seq<seq<Row>>, ops: seq<Op>, n: nat, team: string)
    requires |states| == |ops| + 1 && n <= |ops|
    requires forall i | 0 <= i < |ops| :: ops[i].Sync? ==> IsRegistered(ops[i].req)
    requires Stored(states[0], team, REPO).Some? <==> Stored(states[0], team, BRANCH).Some?
    ensures LastAsked(lists, states, ops, n, team, REPO).Some? <==> LastAsked(lists, states, ops, n, team, BRANCH).Some?
  {
    ConfigKeysApart();
    if n > 0 {
      RepoWithBranch(lists, states, ops, n - 1, team);
      var op := ops[n - 1];
      assert op.Sync? ==> (Asked(op.req, REPO) != "" <==> Asked(op.req, BRANCH) != "");
      hide Commits, Stored, Asked, IsRegistered;
    }
  }

  // So over every history of registered requests, every team that has a repo stored can be
  // resynced: a resync fails to find what it needs only before the first sync of a form that
  // commits and after a deletion.
  lemma ResyncAlways(lists: Lists, states: seq<seq<Row>>, ops: seq<Op>, n: nat, team: string, made: Made)
    requires IsHistory(lists, states, ops) && n <= |ops| && Sound(states[0], team)
    requires Stored(states[0], team, REPO).Some? <==> Stored(states[0], team, BRANCH).Some?
    requires forall i | 0 <= i < |ops| :: ops[i].Sync? ==>
               IsRegistered(ops[i].req) && ops[i].made.fernet != "" && ops[i].made.secret != ""
    ensures Merged(states[n], team, RESYNC, made).Ok? <==> Stored(states[n], team, REPO).Some?
    ensures Stored(states[n], team, REPO) == LastAsked(lists, states, ops, n, team, REPO)
  {
    hide Sound, LastAsked, Merged, Stored, IsRegistered;
    ResyncExactly(lists, states, ops, n, team, made);
    RepoWithBranch(lists, states, ops, n, team);
    Sticky(lists, states, ops, n, team, REPO);
  }
}
