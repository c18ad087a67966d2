// Exactly when the order of the fields does not matter, for forms whose new names clash too.
module Clashes {
  import opened Wrappers
  import opened GlobalStore
  import opened GlobalEdit
  import opened Pairing
  import opened Orders

  ghost predicate Disagree(originals: seq<Row>, form: Form, one: seq<Visit>, other: seq<Visit>)
    requires Filled(form)
  {
    && IsFullRun(originals, form, one) && IsFullRun(originals, form, other)
    && Outcome(originals, form, one) != Outcome(originals, form, other)
  }

  // ---- A new name that is another key field ------------------------------------------------

  // What a key field k makes of the changes, and its value field.
  function WithKey(form: Form, changed: Changes, k: string): Changes
    requires Filled(form) && k in form && IsKeyField(k)
  {
    if k in changed then changed[form[k][0] := changed[k]] - {k}
    else changed[form[k][0] := Diff("", ValueFieldOf(k), Mark(form[k]))]
  }

  function WithValue(form: Form, changed: Changes, k: string, picked: string): Changes
    requires Filled(form) && IsKeyField(k) && ValueFieldOf(k) in form
  {
    changed[(if picked != "" then picked else k) := NewDiff(form[ValueFieldOf(k)])]
  }

  lemma ThenKey(originals: seq<Row>, form: Form, run: seq<Visit>, k: string) returns (longer: seq<Visit>)
    requires Filled(form) && IsRun(originals, form, run) && k in form && k !in Visited(run) && IsKeyField(k)
    ensures IsRun(originals, form, longer) && Visited(longer) == Visited(run) + {k}
    ensures run <= longer
    ensures Outcome(originals, form, longer) == WithKey(form, Outcome(originals, form, run), k)
  {
    PartnersPair(k);
    RunGrows(originals, form, run, Visit(k, ""));
    longer := run + [Visit(k, "")];
  }

  lemma ThenValue(originals: seq<Row>, form: Form, run: seq<Visit>, k: string, picked: string)
    returns (longer: seq<Visit>)
    requires Filled(form) && IsRun(originals, form, run) && IsKeyField(k)
    requires ValueFieldOf(k) in form && ValueFieldOf(k) !in Visited(run)
    requires CanPick(Outcome(originals, form, run), ValueFieldOf(k), picked)
    ensures IsRun(originals, form, longer) && Visited(longer) == Visited(run) + {ValueFieldOf(k)}
    ensures run <= longer
    ensures Outcome(originals, form, longer) == WithValue(form, Outcome(originals, form, run), k, picked)
  {
    PartnersPair(k);
    PartnersPair(ValueFieldOf(k));
    RunGrows(originals, form, run, Visit(ValueFieldOf(k), picked));
    longer := run + [Visit(ValueFieldOf(k), picked)];
  }

  // The entry that k leaves under m is moved on if m comes later, and stays otherwise.
  lemma KeyNameDisagrees(originals: seq<Row>, form: Form, k: string, m: string)
    returns (one: seq<Visit>, other: seq<Visit>)
    requires Filled(form) && k in form && m in form && k != m
    requires IsKeyField(k) && IsKeyField(m) && form[k][0] == m
    ensures Disagree(originals, form, one, other)
    ensures m in Outcome(originals, form, one) && m !in Outcome(originals, form, other)
  {
    NoRun(originals, form);
    var most := GoOn(originals, form, [], form.Keys - {k, m});
    assert form.Keys - {k, m} + {m} + {k} == form.Keys && form.Keys - {k, m} + {k} + {m} == form.Keys;
    var changed := Outcome(originals, form, most);
    assert m in WithKey(form, WithKey(form, changed, m), k) && m !in WithKey(form, WithKey(form, changed, k), m);
    hide IsRun, Outcome, Visited, IsKeyField, WithKey;
    one := ThenKey(originals, form, most, m);
    one := ThenKey(originals, form, one, k);
    other := ThenKey(originals, form, most, k);
    other := ThenKey(originals, form, other, m);
  }

  // ---- A new name that is empty, or its own field --------------------------------------------

  ghost predicate NamedOnlyByItself(form: Form, k: string)
    requires Filled(form)
  {
    forall m | m in form && IsKeyField(m) && form[m][0] == k :: m == k
  }

  // The value stays under the key field if it comes second, and is moved away if it comes
  // first.
  lemma OwnNameDisagrees(originals: seq<Row>, form: Form, k: string) returns (one: seq<Visit>, other: seq<Visit>)
    requires Filled(form) && k in form && IsKeyField(k) && ValueFieldOf(k) in form
    requires form[k][0] == "" || form[k][0] == k
    requires NamedOnlyByItself(form, k)
    ensures Disagree(originals, form, one, other)
    ensures k in Outcome(originals, form, one) && k !in Outcome(originals, form, other)
  {
    PartnersPair(k);
    NoRun(originals, form);
    var picked := if form[k][0] == "" then "" else k;
    OwnNameMaps(form, k);
    hide IsRun, Outcome, Visited, IsKeyField, ValueFieldOf, NamedOnlyByItself, WithKey, WithValue, CanPick;
    one := ThenKey(originals, form, [], k);
    one := ThenValue(originals, form, one, k, picked);
    one := Settled(originals, form, one, k);
    other := ThenValue(originals, form, [], k, "");
    other := ThenKey(originals, form, other, k);
    other := Settled(originals, form, other, k);
  }

  lemma OwnNameMaps(form: Form, k: string)
    requires Filled(form) && k in form && IsKeyField(k) && ValueFieldOf(k) in form
    requires form[k][0] == "" || form[k][0] == k
    ensures var named, picked := WithKey(form, map[], k), if form[k][0] == "" then "" else k;
            CanPick(named, ValueFieldOf(k), picked) && k in WithValue(form, named, k, picked)
    ensures CanPick(map[], ValueFieldOf(k), "") && k !in WithKey(form, WithValue(form, map[], k, ""), k)
  {
  }

  // Whatever comes later.
  lemma Settled(originals: seq<Row>, form: Form, run: seq<Visit>, k: string) returns (full: seq<Visit>)
    requires Filled(form) && IsRun(originals, form, run) && Visited(run) <= form.Keys && IsKeyField(k)
    requires (k in form ==> k in Visited(run)) && (ValueFieldOf(k) in form ==> ValueFieldOf(k) in Visited(run))
    requires NamedOnlyByItself(form, k)
    ensures IsFullRun(originals, form, full)
    ensures k in Outcome(originals, form, full) <==> k in Outcome(originals, form, run)
  {
    hide IsRun, Outcome, Visited;
    full := GoOn(originals, form, run, form.Keys);
    assert full[..|run|] == run;
    PresenceStays(originals, form, full, |run|, k);
  }

  // ---- Two new keys of one name ----------------------------------------------------------------

  // The value of j finds the name if it comes before k, and not if it comes after.
  lemma SameNameDisagrees(originals: seq<Row>, form: Form, j: string, k: string)
    returns (one: seq<Visit>, other: seq<Visit>)
    requires Filled(form) && j in form && k in form && j != k && IsKeyField(j) && IsKeyField(k)
    requires form[j][0] == form[k][0] && form[j][0] != "" && form[j][0] != j && form[j][0] != k
    requires ValueFieldOf(j) in form && NamedOnlyByItself(form, j)
    ensures Disagree(originals, form, one, other)
    ensures j !in Outcome(originals, form, one) && j in Outcome(originals, form, other)
  {
    var name := form[j][0];
    PartnersPair(j);
    PartnersPair(k);
    NoRun(originals, form);
    SameNameMaps(form, j, k);
    hide IsRun, Outcome, Visited, IsKeyField, ValueFieldOf, NamedOnlyByItself, WithKey, WithValue, CanPick;
    var named := ThenKey(originals, form, [], j);
    one := ThenValue(originals, form, named, j, name);
    one := Settled(originals, form, one, j);
    other := ThenKey(originals, form, named, k);
    other := ThenValue(originals, form, other, j, "");
    other := Settled(originals, form, other, j);
  }

  lemma SameNameMaps(form: Form, j: string, k: string)
    requires Filled(form) && j in form && k in form && j != k && IsKeyField(j) && IsKeyField(k)
    requires form[j][0] == form[k][0] && form[j][0] != "" && form[j][0] != j && form[j][0] != k
    requires ValueFieldOf(j) in form
    ensures ValueFieldOf(j) != ValueFieldOf(k) && ValueFieldOf(j) != j && ValueFieldOf(j) != k
    ensures var named, name := WithKey(form, map[], j), form[j][0];
            && CanPick(named, ValueFieldOf(j), name) && j !in WithValue(form, named, j, name)
            && CanPick(WithKey(form, named, k), ValueFieldOf(j), "")
            && j in WithValue(form, WithKey(form, named, k), j, "")
  {
    PartnersPair(j);
    PartnersPair(k);
    assert WithKey(form, map[], j) == map[form[j][0] := Diff("", ValueFieldOf(j), Mark(form[j]))];
    assert ValueFieldOf(j) != ValueFieldOf(k);
    hide IsKeyField, ValueFieldOf;
  }

  // A key field that nobody names has no entry before its value field has come.
  lemma {:induction false} NoEntry(originals: seq<Row>, form: Form, run: seq<Visit>, k: string)
    requires Filled(form) && IsRun(originals, form, run) && IsKeyField(k) && ValueFieldOf(k) !in Visited(run)
    requires forall m | m in form && IsKeyField(m) :: form[m][0] != k
    ensures k !in Outcome(originals, form, run)
    decreases |run|
  {
    if run != [] {
      var last, rest := run[|run| - 1], run[..|run| - 1];
      NoEntry(originals, form, rest, k);
      PartnersPair(k);
      PartnersPair(last.field);
      assert Outcome(originals, form, run) == Step(originals, form, Outcome(originals, form, rest), last);
    }
  }

  // With no values to go with them, the one that comes last stands.
  lemma LoneNamesDisagree(originals: seq<Row>, form: Form, j: string, k: string)
    returns (one: seq<Visit>, other: seq<Visit>)
    requires Filled(form) && j in form && k in form && j != k && IsKeyField(j) && IsKeyField(k)
    requires form[j][0] == form[k][0]
    requires ValueFieldOf(j) !in form && ValueFieldOf(k) !in form
    requires forall m | m in form && IsKeyField(m) :: form[m][0] != j && form[m][0] != k
    ensures Disagree(originals, form, one, other)
  {
    NoRun(originals, form);
    PartnersPair(j);
    PartnersPair(k);
    var most := GoOn(originals, form, [], form.Keys - {j, k});
    assert form.Keys - {j, k} + {j} + {k} == form.Keys && form.Keys - {j, k} + {k} + {j} == form.Keys;
    assert ValueFieldOf(j) != ValueFieldOf(k);
    hide IsRun, Outcome, Visited, IsKeyField, ValueFieldOf;
    one := ThenKey(originals, form, most, j);
    NoEntry(originals, form, one, k);
    one := ThenKey(originals, form, one, k);
    other := ThenKey(originals, form, most, k);
    NoEntry(originals, form, other, j);
    other := ThenKey(originals, form, other, j);
    assert Outcome(originals, form, one)[form[j][0]].newValue == ValueFieldOf(k);
    assert Outcome(originals, form, other)[form[j][0]].newValue == ValueFieldOf(j);
  }

  // ---- A new name of a stored key that is edited at the same time ---------------------------------

  // No entry under the name of a key field has an old value.
  lemma {:induction false} NoOldValue(originals: seq<Row>, form: Form, run: seq<Visit>, k: string)
    requires Filled(form) && IsRun(originals, form, run) && IsKeyField(k)
    ensures k in Outcome(originals, form, run) ==> Outcome(originals, form, run)[k].oldValue == ""
    decreases |run|
  {
    if run != [] {
      var last, rest := run[|run| - 1], run[..|run| - 1];
      NoOldValue(originals, form, rest, k);
      if IsKeyField(last.field) { NoOldValue(originals, form, rest, last.field); }
      PartnersPair(last.field);
      assert Outcome(originals, form, run) == Step(originals, form, Outcome(originals, form, rest), last);
    }
  }

  // The edit has the old value and the new key has none, and the one that comes last stands.
  lemma EditedNameDisagrees(originals: seq<Row>, form: Form, k: string) returns (one: seq<Visit>, other: seq<Visit>)
    requires Filled(form) && k in form && IsKeyField(k)
    requires IsEdited(originals, form, form[k][0]) && Original(originals, form[k][0]).value != ""
    ensures Disagree(originals, form, one, other)
  {
    one := EditLast(originals, form, form[k][0]);
    NoRun(originals, form);
    var most := GoOn(originals, form, [], form.Keys - {k});
    assert form.Keys - {k} + {k} == form.Keys;
    NoOldValue(originals, form, most, k);
    hide IsRun, Outcome, Visited, IsKeyField, ValueFieldOf, Original;
    other := ThenKey(originals, form, most, k);
    assert Outcome(originals, form, other)[form[k][0]].oldValue == "";
  }

  lemma EditLast(originals: seq<Row>, form: Form, x: string) returns (run: seq<Visit>)
    requires Filled(form) && IsEdited(originals, form, x)
    ensures IsFullRun(originals, form, run)
    ensures x in Outcome(originals, form, run)
    ensures Outcome(originals, form, run)[x].oldValue == Original(originals, x).value
  {
    NoRun(originals, form);
    run := GoOn(originals, form, [], form.Keys - {x});
    assert form.Keys - {x} + {x} == form.Keys;
    hide IsRun, Outcome, Visited, IsKeyField, IsValueField;
    RunGrows(originals, form, run, Visit(x, ""));
    run := run + [Visit(x, "")];
  }

  // ---- A new name under which another value waits ------------------------------------------------

  // k gives as its name the missing key field of some value field.
  ghost predicate IsWaiting(form: Form, k: string)
    requires Filled(form)
  {
    k in form && IsKeyField(k) && IsPlaceholder(form, form[k][0]) && form[k][0] !in form
  }

  // What k records first, what its value field does and what the waiting value does are all
  // the same.
  predicate IsEcho(form: Form, k: string)
    requires Filled(form) && IsWaiting(form, k)
  {
    var d := Diff("", ValueFieldOf(k), Mark(form[k]));
    NewDiff(form[ValueFieldOf(form[k][0])]) == d
    && (ValueFieldOf(k) in form ==> NewDiff(form[ValueFieldOf(k)]) == d)
  }

  ghost predicate NamedOnce(form: Form, k: string)
    requires Filled(form) && k in form
  {
    forall m | m in form && IsKeyField(m) :: form[m][0] != k && (form[m][0] == form[k][0] ==> m == k)
  }

  // The entry under such a name is settled once no field to come writes or finds it.
  ghost predicate IsSettled(originals: seq<Row>, form: Form, run: seq<Visit>, k: string, d: Diff)
    requires Filled(form) && IsWaiting(form, k) && IsRun(originals, form, run)
  {
    && k in Visited(run) && ValueFieldOf(form[k][0]) in Visited(run)
    && At(Outcome(originals, form, run), form[k][0]) == Some(d)
    && (IsValueField(d.newValue) && d.newValue in form ==> d.newValue in Visited(run))
  }

  lemma OtherStep(originals: seq<Row>, form: Form, done: set<string>, changed: Changes, v: Visit, k: string, d: Diff)
    requires Filled(form) && IsWaiting(form, k) && NamedOnce(form, k) && k in done && ValueFieldOf(form[k][0]) in done
    requires v.field in form && v.field !in done
    requires IsValueField(v.field) ==> CanPick(changed, v.field, v.picked)
    requires At(changed, form[k][0]) == Some(d)
    requires IsValueField(d.newValue) && d.newValue in form ==> d.newValue in done
    ensures At(Step(originals, form, changed, v), form[k][0]) == Some(d)
  {
    PartnersPair(form[k][0]);
    PartnersPair(v.field);
    hide Original;
  }

  lemma {:induction false} EntryStays(originals: seq<Row>, form: Form, run: seq<Visit>, n: nat, k: string, d: Diff)
    requires Filled(form) && IsRun(originals, form, run) && n <= |run| && IsRun(originals, form, run[..n])
    requires IsWaiting(form, k) && NamedOnce(form, k) && IsSettled(originals, form, run[..n], k, d)
    ensures At(Outcome(originals, form, run), form[k][0]) == Some(d)
    decreases |run|
  {
    if n == |run| {
      assert run[..n] == run;
    } else {
      var last, rest := run[|run| - 1], run[..|run| - 1];
      assert rest[..n] == run[..n];
      EntryStays(originals, form, rest, n, k, d);
      assert Visited(run[..n]) <= Visited(rest);
      assert Outcome(originals, form, run) == Step(originals, form, Outcome(originals, form, rest), last);
      hide Step, Outcome, CanPick, NamedOnce, IsPlaceholder;
      OtherStep(originals, form, Visited(rest), Outcome(originals, form, rest), last, k, d);
    }
  }

  lemma SettledEntry(originals: seq<Row>, form: Form, run: seq<Visit>, k: string, d: Diff) returns (full: seq<Visit>)
    requires Filled(form) && IsRun(originals, form, run) && Visited(run) <= form.Keys
    requires IsWaiting(form, k) && NamedOnce(form, k) && IsSettled(originals, form, run, k, d)
    ensures IsFullRun(originals, form, full) && At(Outcome(originals, form, full), form[k][0]) == Some(d)
  {
    hide IsRun, Outcome, Visited, IsWaiting, NamedOnce;
    full := GoOn(originals, form, run, form.Keys);
    assert full[..|run|] == run;
    EntryStays(originals, form, full, |run|, k, d);
  }

  // The value field of k is there, and the waiting value is not its name: the value of k
  // finds the name only if the waiting value has not come in between.
  lemma WaitingBetween(originals: seq<Row>, form: Form, k: string) returns (one: seq<Visit>, other: seq<Visit>)
    requires Filled(form) && IsWaiting(form, k) && NamedOnce(form, k) && ValueFieldOf(k) in form
    requires form[ValueFieldOf(form[k][0])][0] != ValueFieldOf(k)
    ensures Disagree(originals, form, one, other)
  {
    var x := form[k][0];
    PartnersPair(k);
    PartnersPair(x);
    NoRun(originals, form);
    var named := WithKey(form, map[], k);
    assert named == map[x := Diff("", ValueFieldOf(k), Mark(form[k]))];
    assert ValueFieldOf(x) != ValueFieldOf(k);
    assert WithValue(form, named, x, "") == map[x := NewDiff(form[ValueFieldOf(x)])];
    hide IsRun, Outcome, Visited, IsKeyField, ValueFieldOf, WithKey;
    var first := ThenKey(originals, form, [], k);
    one := ThenValue(originals, form, first, x, "");
    one := ThenValue(originals, form, one, k, "");
    one := Settled(originals, form, one, k);
    other := ThenValue(originals, form, first, k, x);
    other := Settled(originals, form, other, k);
  }

  // The waiting value is the name of k's value field, and so is found by it.
  lemma WaitingFound(originals: seq<Row>, form: Form, k: string) returns (one: seq<Visit>, other: seq<Visit>)
    requires Filled(form) && IsWaiting(form, k) && NamedOnce(form, k) && ValueFieldOf(k) in form
    requires form[ValueFieldOf(form[k][0])][0] == ValueFieldOf(k) && !IsEcho(form, k)
    ensures Disagree(originals, form, one, other)
  {
    var x := form[k][0];
    one := WaitingLast(originals, form, k);
    if NewDiff(form[ValueFieldOf(k)]) != NewDiff(form[ValueFieldOf(x)]) {
      other := ValueLast(originals, form, k);
    } else {
      other := KeyLast(originals, form, k);
    }
  }

  lemma WaitingLast(originals: seq<Row>, form: Form, k: string) returns (run: seq<Visit>)
    requires Filled(form) && IsWaiting(form, k) && NamedOnce(form, k) && ValueFieldOf(k) in form
    requires form[ValueFieldOf(form[k][0])][0] == ValueFieldOf(k)
    ensures IsFullRun(originals, form, run)
    ensures At(Outcome(originals, form, run), form[k][0]) == Some(NewDiff(form[ValueFieldOf(form[k][0])]))
  {
    var x := form[k][0];
    PartnersPair(k);
    PartnersPair(x);
    NoRun(originals, form);
    var named := WithKey(form, map[], k);
    assert named == map[x := Diff("", ValueFieldOf(k), Mark(form[k]))];
    assert ValueFieldOf(x) != ValueFieldOf(k);
    assert WithValue(form, named, k, x) == map[x := NewDiff(form[ValueFieldOf(k)])];
    hide IsRun, Outcome, Visited, IsKeyField, ValueFieldOf, WithKey;
    run := ThenKey(originals, form, [], k);
    run := ThenValue(originals, form, run, k, x);
    run := ThenValue(originals, form, run, x, if form[ValueFieldOf(k)][0] == ValueFieldOf(x) then x else "");
    run := SettledEntry(originals, form, run, k, NewDiff(form[ValueFieldOf(x)]));
  }

  lemma ValueLast(originals: seq<Row>, form: Form, k: string) returns (run: seq<Visit>)
    requires Filled(form) && IsWaiting(form, k) && NamedOnce(form, k) && ValueFieldOf(k) in form
    ensures IsFullRun(originals, form, run)
    ensures At(Outcome(originals, form, run), form[k][0]) == Some(NewDiff(form[ValueFieldOf(k)]))
  {
    var x := form[k][0];
    PartnersPair(k);
    NoRun(originals, form);
    var fields := form.Keys - {k, ValueFieldOf(k)};
    assert fields + {k} + {ValueFieldOf(k)} == form.Keys;
    run := GoOn(originals, form, [], fields);
    NoEntry(originals, form, run, k);
    hide IsRun, Outcome, Visited, IsKeyField, ValueFieldOf;
    run := ThenKey(originals, form, run, k);
    run := ThenValue(originals, form, run, k, x);
  }

  lemma KeyLast(originals: seq<Row>, form: Form, k: string) returns (run: seq<Visit>)
    requires Filled(form) && IsWaiting(form, k) && NamedOnce(form, k) && ValueFieldOf(k) in form
    requires form[ValueFieldOf(form[k][0])][0] == ValueFieldOf(k)
    ensures IsFullRun(originals, form, run)
    ensures At(Outcome(originals, form, run), form[k][0]) == Some(Diff("", ValueFieldOf(k), Mark(form[k])))
  {
    var x := form[k][0];
    PartnersPair(k);
    PartnersPair(x);
    NoRun(originals, form);
    assert WithValue(form, map[], x, "") == map[x := NewDiff(form[ValueFieldOf(x)])];
    assert ValueFieldOf(x) != ValueFieldOf(k);
    assert WithValue(form, WithValue(form, map[], x, ""), k, x) == map[x := NewDiff(form[ValueFieldOf(k)])];
    hide IsRun, Outcome, Visited, IsKeyField, ValueFieldOf;
    run := ThenValue(originals, form, [], x, "");
    run := ThenValue(originals, form, run, k, x);
    run := ThenKey(originals, form, run, k);
    run := SettledEntry(originals, form, run, k, Diff("", ValueFieldOf(k), Mark(form[k])));
  }

  lemma WaitingDisagrees(originals: seq<Row>, form: Form, k: string) returns (one: seq<Visit>, other: seq<Visit>)
    requires Filled(form) && IsWaiting(form, k) && NamedOnce(form, k) && !IsEcho(form, k)
    ensures Disagree(originals, form, one, other)
  {
    hide NamedOnce, IsEcho, Disagree;
    if ValueFieldOf(k) !in form {
      one, other := WaitingLone(originals, form, k);
    } else if form[ValueFieldOf(form[k][0])][0] == ValueFieldOf(k) {
      one, other := WaitingFound(originals, form, k);
    } else {
      one, other := WaitingBetween(originals, form, k);
    }
  }

  // With no value field for k, the last of the two stands, or what comes of it.
  lemma WaitingLone(originals: seq<Row>, form: Form, k: string) returns (one: seq<Visit>, other: seq<Visit>)
    requires Filled(form) && IsWaiting(form, k) && NamedOnce(form, k) && ValueFieldOf(k) !in form
    requires !IsEcho(form, k)
    ensures Disagree(originals, form, one, other)
  {
    var x := form[k][0];
    var w := ValueFieldOf(x);
    var v := form[w][0];
    one := LoneKeyLast(originals, form, k);
    if v == w || v !in form || !IsValueField(v) {
      other := LoneWaitingLast(originals, form, k);
    } else if form[v][0] == w {
      other := LoneThird(originals, form, k, v);
    } else {
      other := LoneAfterThird(originals, form, k, v);
    }
  }

  lemma LoneKeyLast(originals: seq<Row>, form: Form, k: string) returns (run: seq<Visit>)
    requires Filled(form) && IsWaiting(form, k) && NamedOnce(form, k) && ValueFieldOf(k) !in form
    ensures IsFullRun(originals, form, run)
    ensures At(Outcome(originals, form, run), form[k][0]) == Some(Diff("", ValueFieldOf(k), Mark(form[k])))
  {
    var x := form[k][0];
    PartnersPair(k);
    PartnersPair(x);
    NoRun(originals, form);
    assert WithValue(form, map[], x, "") == map[x := NewDiff(form[ValueFieldOf(x)])];
    assert ValueFieldOf(x) != ValueFieldOf(k);
    hide IsRun, Outcome, Visited, IsKeyField, ValueFieldOf;
    run := ThenValue(originals, form, [], x, "");
    run := ThenKey(originals, form, run, k);
    run := SettledEntry(originals, form, run, k, Diff("", ValueFieldOf(k), Mark(form[k])));
  }

  lemma LoneWaitingLast(originals: seq<Row>, form: Form, k: string) returns (run: seq<Visit>)
    requires Filled(form) && IsWaiting(form, k) && NamedOnce(form, k) && ValueFieldOf(k) !in form
    requires var w := ValueFieldOf(form[k][0]); form[w][0] == w || form[w][0] !in form || !IsValueField(form[w][0])
    ensures IsFullRun(originals, form, run)
    ensures At(Outcome(originals, form, run), form[k][0]) == Some(NewDiff(form[ValueFieldOf(form[k][0])]))
  {
    var x := form[k][0];
    PartnersPair(k);
    PartnersPair(x);
    NoRun(originals, form);
    assert WithKey(form, map[], k) == map[x := Diff("", ValueFieldOf(k), Mark(form[k]))];
    assert ValueFieldOf(x) != ValueFieldOf(k);
    hide IsRun, Outcome, Visited, IsKeyField, ValueFieldOf, WithKey;
    run := ThenKey(originals, form, [], k);
    run := ThenValue(originals, form, run, x, "");
    run := SettledEntry(originals, form, run, k, NewDiff(form[ValueFieldOf(x)]));
  }

  // The waiting value is the name of a third value field v. Either it finds the entry of v,
  // which then finds the name,
  lemma LoneThird(originals: seq<Row>, form: Form, k: string, v: string) returns (run: seq<Visit>)
    requires Filled(form) && IsWaiting(form, k) && NamedOnce(form, k) && ValueFieldOf(k) !in form
    requires var w := ValueFieldOf(form[k][0]);
             v != w && v in form && IsValueField(v) && form[w][0] == v && form[v][0] == w
    ensures IsFullRun(originals, form, run)
    ensures At(Outcome(originals, form, run), form[k][0]) == Some(NewDiff(form[v]))
  {
    var x, m := form[k][0], KeyFieldOf(v);
    PartnersPair(k);
    PartnersPair(x);
    PartnersPair(v);
    NoRun(originals, form);
    assert WithKey(form, map[], k) == map[x := Diff("", ValueFieldOf(k), Mark(form[k]))];
    hide IsRun, Outcome, Visited, IsKeyField, ValueFieldOf, KeyFieldOf, WithKey;
    run := ThenKey(originals, form, [], k);
    run := ThenValue(originals, form, run, x, "");
    run := ThenValue(originals, form, run, m, x);
    hide WithValue, CanPick;
    run := SettledEntry(originals, form, run, k, NewDiff(form[v]));
  }

  // or v has come before.
  lemma LoneAfterThird(originals: seq<Row>, form: Form, k: string, v: string) returns (run: seq<Visit>)
    requires Filled(form) && IsWaiting(form, k) && NamedOnce(form, k) && ValueFieldOf(k) !in form
    requires var w := ValueFieldOf(form[k][0]);
             v != w && v in form && IsValueField(v) && form[w][0] == v && form[v][0] != w
    ensures IsFullRun(originals, form, run)
    ensures At(Outcome(originals, form, run), form[k][0]) == Some(NewDiff(form[ValueFieldOf(form[k][0])]))
  {
    var x, m := form[k][0], KeyFieldOf(v);
    PartnersPair(k);
    PartnersPair(x);
    PartnersPair(v);
    NoRun(originals, form);
    assert m != x && m != k;
    assert WithValue(form, map[], m, "") == map[m := NewDiff(form[v])];
    assert WithKey(form, map[m := NewDiff(form[v])], k) ==
           map[m := NewDiff(form[v]), x := Diff("", ValueFieldOf(k), Mark(form[k]))];
    hide IsRun, Outcome, Visited, IsKeyField, ValueFieldOf, KeyFieldOf, WithKey;
    run := ThenValue(originals, form, [], m, "");
    run := ThenKey(originals, form, run, k);
    run := ThenValue(originals, form, run, x, "");
    hide WithValue, CanPick;
    run := SettledEntry(originals, form, run, k, NewDiff(form[ValueFieldOf(x)]));
  }

  // ---- Exactly when the order does not matter ---------------------------------------------------

  // No new name under which a value waits is only echoed, and none is that of an edited
  // stored key whose stored value is empty.
  ghost predicate NamesPlain(originals: seq<Row>, form: Form)
    requires Filled(form)
  {
    forall k | k in form && IsKeyField(k) ::
      var name := form[k][0];
      && (IsWaiting(form, k) ==> !IsEcho(form, k))
      && (IsEdited(originals, form, name) ==> Original(originals, name).value != "")
  }

  // Names that do not fit always let the order decide.
  lemma ClashDisagrees(originals: seq<Row>, form: Form) returns (one: seq<Visit>, other: seq<Visit>)
    requires Filled(form) && NamesPlain(originals, form) && !NamesFit(originals, form)
    ensures Disagree(originals, form, one, other)
  {
    hide Disagree, IsEdited, Original, ValueFieldOf;
    if k, m :| k in form && m in form && k != m && IsKeyField(k) && IsKeyField(m) && form[k][0] == m {
      one, other := KeyNameDisagrees(originals, form, k, m);
    } else if k :| k in form && IsKeyField(k) && ValueFieldOf(k) in form && (form[k][0] == "" || form[k][0] == k) {
      one, other := OwnNameDisagrees(originals, form, k);
    } else if k :| k in form && IsKeyField(k) && IsEdited(originals, form, form[k][0]) {
      one, other := EditedNameDisagrees(originals, form, k);
    } else if j, k :| j in form && k in form && j != k && IsKeyField(j) && IsKeyField(k) && form[j][0] == form[k][0] {
      if ValueFieldOf(j) in form {
        one, other := SameNameDisagrees(originals, form, j, k);
      } else if ValueFieldOf(k) in form {
        one, other := SameNameDisagrees(originals, form, k, j);
      } else {
        one, other := LoneNamesDisagree(originals, form, j, k);
      }
    } else {
      var k :| k in form && IsKeyField(k) && IsPlaceholder(form, form[k][0]);
      assert IsWaiting(form, k);
      one, other := WaitingDisagrees(originals, form, k);
    }
  }

  // All orders agree if and only if the names fit, and no change that has the name of
  // another's value field for its value can be found by it to any harm.
  lemma OrderExactly(originals: seq<Row>, form: Form)
    requires Filled(form) && NamesPlain(originals, form)
    ensures (forall one, other | IsFullRun(originals, form, one) && IsFullRun(originals, form, other) ::
               Outcome(originals, form, one) == Outcome(originals, form, other))
            <==> NamesFit(originals, form) && ValuesFit(originals, form)
  {
    hide IsFullRun, Outcome, NamesFit, NamesPlain;
    if !NamesFit(originals, form) {
      var one, other := ClashDisagrees(originals, form);
    } else if ValuesFit(originals, form) {
      forall one, other | IsFullRun(originals, form, one) && IsFullRun(originals, form, other)
        ensures Outcome(originals, form, one) == Outcome(originals, form, other)
      {
        OrderIndependent(originals, form, one, other);
      }
    } else {
      var w, x :| Confuses(originals, form, w, x) && !IsHarmless(originals, form, w, x);
      var one, other := HarmDisagrees(originals, form, w, x);
    }
  }
}
