// Editing the global values: the form is compared with what is stored, while it is read in
// whatever order the map gives its fields.
module GlobalEdit {
  import opened Wrappers
  import opened GlobalStore

  // A field has its text, and a second entry when its checkbox is ticked.
  type Form = map<string, seq<string>>

  datatype Diff = Diff(oldValue: string, newValue: string, encrypted: string)

  type Changes = map<string, Diff>

  const KEY := "key"
  const VALUE := "value"

  predicate IsKeyField(field: string) { KEY <= field }

  predicate IsValueField(field: string) { VALUE <= field }

  function ValueFieldOf(field: string): string
    requires IsKeyField(field)
  {
    VALUE + field[|KEY|..]
  }

  function KeyFieldOf(field: string): string
    requires IsValueField(field)
  {
    KEY + field[|VALUE|..]
  }

  lemma PartnersPair(field: string)
    ensures !(IsKeyField(field) && IsValueField(field))
    ensures IsKeyField(field) ==> IsValueField(ValueFieldOf(field)) && KeyFieldOf(ValueFieldOf(field)) == field
    ensures IsValueField(field) ==> IsKeyField(KeyFieldOf(field)) && ValueFieldOf(KeyFieldOf(field)) == field
  {
    if IsKeyField(field) { assert field == KEY + field[|KEY|..] && field[0] == 'k'; }
    if IsValueField(field) { assert field == VALUE + field[|VALUE|..] && field[0] == 'v'; }
    if IsKeyField(field) { assert VALUE <= ValueFieldOf(field) && ValueFieldOf(field)[|VALUE|..] == field[|KEY|..]; }
    if IsValueField(field) { assert KEY <= KeyFieldOf(field) && KeyFieldOf(field)[|KEY|..] == field[|VALUE|..]; }
  }

  predicate Filled(form: Form) {
    forall k | k in form :: form[k] != []
  }

  function Mark(values: seq<string>): string {
    if |values| == 2 then values[1] else ""
  }

  function NewDiff(values: seq<string>): Diff
    requires values != []
  {
    Diff("", values[0], Mark(values))
  }

  function Original(originals: seq<Row>, key: string): Option<string> {
    if originals == [] then None
    else if originals[0].key == key then Some(originals[0].value)
    else Original(originals[1..], key)
  }

  // ---- One run over the form ----------------------------------------------------------

  // A field is visited, and for a value field an entry whose new value is that field's name
  // is picked, or "" when there is none.
  datatype Visit = Visit(field: string, picked: string)

  ghost predicate CanPick(changed: Changes, needle: string, picked: string) {
    if exists k :: k in changed && changed[k].newValue == needle
    then picked in changed && changed[picked].newValue == needle
    else picked == ""
  }

  function Step(originals: seq<Row>, form: Form, changed: Changes, v: Visit): Changes
    requires Filled(form) && v.field in form
  {
    var values := form[v.field];
    if IsKeyField(v.field) then
      if v.field in changed then changed[values[0] := changed[v.field]] - {v.field}
      else changed[values[0] := Diff("", ValueFieldOf(v.field), Mark(values))]
    else if IsValueField(v.field) then
      if v.picked != "" then changed[v.picked := NewDiff(values)]
      else changed[KeyFieldOf(v.field) := NewDiff(values)]
    else
      match Original(originals, v.field)
      case None => changed
      case Some(oldValue) =>
        if oldValue == values[0] then changed else changed[v.field := Diff(oldValue, values[0], Mark(values))]
  }

  function Outcome(originals: seq<Row>, form: Form, run: seq<Visit>): Changes
    requires Filled(form) && forall i | 0 <= i < |run| :: run[i].field in form
  {
    if run == [] then map[]
    else
      var n := |run| - 1;
      Step(originals, form, Outcome(originals, form, run[..n]), run[n])
  }

  function Visited(run: seq<Visit>): set<string> {
    set v | v in run :: v.field
  }

  // Each field at most once, each pick a possible one.
  ghost predicate IsRun(originals: seq<Row>, form: Form, run: seq<Visit>)
    requires Filled(form)
    decreases |run|
  {
    run == [] ||
    var n := |run| - 1;
    && (forall i | 0 <= i < |run| :: run[i].field in form)
    && IsRun(originals, form, run[..n])
    && run[n].field !in Visited(run[..n])
    && (IsValueField(run[n].field) ==> CanPick(Outcome(originals, form, run[..n]), run[n].field, run[n].picked))
  }

  ghost predicate IsFullRun(originals: seq<Row>, form: Form, run: seq<Visit>): (full: bool)
    requires Filled(form)
    ensures full ==> forall i | 0 <= i < |run| :: run[i].field in form
  {
    IsRun(originals, form, run) && Visited(run) == form.Keys
  }

  // ---- The loops ------------------------------------------------------------------------

  method ValueForKey(values: Changes, needle: string) returns (found: Option<Diff>)
    ensures found == if needle in values then Some(values[needle]) else None
  {
    var todo := values.Keys;
    while todo != {}
      invariant todo <= values.Keys && (needle in values ==> needle in todo)
      decreases todo
    {
      var key :| key in todo;
      if key == needle { return Some(values[key]); }
      todo := todo - {key};
    }
    found := None;
  }

  method KeyForValue(values: Changes, needle: string) returns (picked: string)
    ensures CanPick(values, needle, picked)
  {
    var todo := values.Keys;
    while todo != {}
      invariant todo <= values.Keys && forall k | k in values && k !in todo :: values[k].newValue != needle
      decreases todo
    {
      var key :| key in todo;
      if values[key].newValue == needle { return key; }
      todo := todo - {key};
    }
    picked := "";
  }

  method ChangedOriginal(changed: Changes, originals: seq<Row>, key: string, values: seq<string>)
    returns (r: Changes)
    requires values != []
    requires forall i, j | 0 <= i < j < |originals| :: originals[i].key != originals[j].key
    ensures r == match Original(originals, key)
                 case None => changed
                 case Some(oldValue) =>
                   if oldValue == values[0] then changed else changed[key := Diff(oldValue, values[0], Mark(values))]
  {
    r := changed;
    var i := 0;
    while i < |originals|
      invariant 0 <= i <= |originals| && r == changed
      invariant forall j | 0 <= j < i :: originals[j].key == key ==> originals[j].value == values[0]
    {
      if originals[i].key == key && originals[i].value != values[0] {
        OriginalAt(originals, i);
        r := r[key := Diff(originals[i].value, values[0], Mark(values))];
        return;
      }
      i := i + 1;
    }
    OriginalWhere(originals, key);
  }

  lemma {:induction false} OriginalWhere(originals: seq<Row>, key: string)
    ensures Original(originals, key) == None ==> forall i | 0 <= i < |originals| :: originals[i].key != key
    ensures Original(originals, key).Some? ==>
              exists i :: 0 <= i < |originals| && originals[i].key == key
                          && originals[i].value == Original(originals, key).value
  {
    if originals != [] && originals[0].key != key {
      OriginalWhere(originals[1..], key);
      if Original(originals, key).Some? {
        var i :| 0 <= i < |originals[1..]| && originals[1..][i].key == key
                 && originals[1..][i].value == Original(originals[1..], key).value;
        assert originals[i + 1].key == key;
      }
    }
  }

  lemma {:induction false} OriginalAt(originals: seq<Row>, i: nat)
    requires i < |originals|
    requires forall i, j | 0 <= i < j < |originals| :: originals[i].key != originals[j].key
    ensures Original(originals, originals[i].key) == Some(originals[i].value)
  {
    if i > 0 {
      assert originals[0].key != originals[i].key;
      OriginalAt(originals[1..], i - 1);
    }
  }

  // findChangedValues: what it returns is the outcome of some run over the whole form.
  method FindChangedValues(originals: seq<Row>, form: Form) returns (changed: Changes)
    requires Filled(form)
    requires forall i, j | 0 <= i < j < |originals| :: originals[i].key != originals[j].key
    ensures exists run :: IsFullRun(originals, form, run) && changed == Outcome(originals, form, run)
  {
    changed := map[];
    ghost var run := [];
    assert IsRun(originals, form, []) && Outcome(originals, form, []) == map[] && Visited([]) == {};
    hide IsRun, Outcome, Visited;
    var todo := form.Keys;
    while todo != {}
      invariant IsRun(originals, form, run) && Visited(run) + todo == form.Keys && Visited(run) !! todo
      invariant changed == Outcome(originals, form, run)
      decreases todo
    {
      var key :| key in todo;
      var values := form[key];
      PartnersPair(key);
      ghost var visit := Visit(key, "");
      if IsKeyField(key) {
        var correctValue := ValueForKey(changed, key);
        if correctValue.Some? {
          changed := changed[values[0] := correctValue.value];
          changed := changed - {key};
        } else {
          changed := changed[values[0] := Diff("", ValueFieldOf(key), Mark(values))];
        }
      } else if IsValueField(key) {
        var correctKey := KeyForValue(changed, key);
        visit := Visit(key, correctKey);
        if correctKey != "" {
          changed := changed[correctKey := NewDiff(values)];
        } else {
          changed := changed[KeyFieldOf(key) := NewDiff(values)];
        }
      } else {
        changed := ChangedOriginal(changed, originals, key, values);
      }
      RunGrows(originals, form, run, visit);
      run := run + [visit];
      todo := todo - {key};
    }
    assert IsFullRun(originals, form, run);
  }

  lemma RunGrows(originals: seq<Row>, form: Form, run: seq<Visit>, v: Visit)
    requires Filled(form) && IsRun(originals, form, run)
    requires v.field in form && v.field !in Visited(run)
    requires IsValueField(v.field) ==> CanPick(Outcome(originals, form, run), v.field, v.picked)
    ensures IsRun(originals, form, run + [v])
    ensures Outcome(originals, form, run + [v]) == Step(originals, form, Outcome(originals, form, run), v)
    ensures Visited(run + [v]) == Visited(run) + {v.field}
  {
    assert (run + [v])[..|run|] == run;
  }

  function WithDeleted(changed: Changes, originals: seq<Row>, form: Form): Changes {
    if originals == [] then changed
    else
      var n := |originals| - 1;
      var before := WithDeleted(changed, originals[..n], form);
      if originals[n].key in form then before
      else before[originals[n].key := Diff(originals[n].value, "", "")]
  }

  method FindDeletedValues(changed: Changes, originals: seq<Row>, form: Form) returns (r: Changes)
    ensures r == WithDeleted(changed, originals, form)
  {
    r := changed;
    var i := 0;
    while i < |originals|
      invariant 0 <= i <= |originals| && r == WithDeleted(changed, originals[..i], form)
    {
      assert originals[..i + 1][..i] == originals[..i];
      var notFound := true;
      var todo := form.Keys;
      while todo != {}
        invariant todo <= form.Keys
        invariant notFound ==> forall k | k in form && k !in todo :: k != originals[i].key
        invariant !notFound ==> originals[i].key in form
        decreases todo
      {
        var key :| key in todo;
        todo := todo - {key};
        if originals[i].key == key {
          notFound := false;
          break;
        }
      }
      if notFound { r := r[originals[i].key := Diff(originals[i].value, "", "")]; }
      i := i + 1;
    }
    assert originals[..i] == originals;
  }
}
