// Two orders that disagree, for every form whose names fit and whose values do not.
module Orders {
  import opened Wrappers
  import opened GlobalStore
  import opened GlobalEdit
  import opened Pairing

  // ---- Making runs ------------------------------------------------------------------------

  lemma SomePick(changed: Changes, w: string) returns (picked: string)
    ensures CanPick(changed, w, picked)
  {
    if k :| k in changed && changed[k].newValue == w {
      picked := k;
    } else {
      picked := "";
    }
  }

  // Every run goes on until all of the fields have been visited.
  lemma GoOn(originals: seq<Row>, form: Form, run: seq<Visit>, fields: set<string>) returns (longer: seq<Visit>)
    requires Filled(form) && IsRun(originals, form, run) && Visited(run) <= fields <= form.Keys
    ensures IsRun(originals, form, longer) && Visited(longer) == fields && run <= longer
    decreases fields - Visited(run)
  {
    hide IsRun, Outcome;
    if Visited(run) == fields {
      longer := run;
    } else {
      var f :| f in fields && f !in Visited(run);
      var picked := SomePick(Outcome(originals, form, run), f);
      RunGrows(originals, form, run, Visit(f, picked));
      longer := GoOn(originals, form, run + [Visit(f, picked)], fields);
    }
  }

  lemma NoRun(originals: seq<Row>, form: Form)
    requires Filled(form)
    ensures IsRun(originals, form, []) && Outcome(originals, form, []) == map[] && Visited([]) == {}
  {
  }

  // A value field without its key field that can find another's change.
  ghost predicate IsStray(originals: seq<Row>, form: Form, w: string, x: string)
    requires Filled(form)
  {
    Confuses(originals, form, w, x) && KeyFieldOf(w) !in form && x != ""
  }

  ghost predicate NoneStray(originals: seq<Row>, form: Form)
    requires Filled(form)
  {
    forall w, x :: !IsStray(originals, form, w, x)
  }

  lemma StandardPick(originals: seq<Row>, form: Form, done: set<string>, changed: Changes, w: string)
    requires Filled(form) && NamesFit(originals, form) && NoneStray(originals, form) && done <= form.Keys
    requires RecordsExactly(originals, form, done, changed)
    requires w in form && w !in done && IsValueField(w) && (KeyFieldOf(w) in form ==> KeyFieldOf(w) in done)
    ensures CanPick(changed, w, if KeyFieldOf(w) in done then form[KeyFieldOf(w)][0] else "")
  {
    assert Records(originals, form, done, changed);
    if KeyFieldOf(w) in done {
      OwnWaits(originals, form, done, changed, w);
    } else if x :| x in changed && changed[x].newValue == w {
      var y := Found(originals, form, done, changed, w, x);
      assert !IsStray(originals, form, w, y);
    }
  }

  // The keys first and each value to its own key: over these fields such a run records just
  // what they ask for.
  lemma StandardRun(originals: seq<Row>, form: Form, fields: set<string>) returns (run: seq<Visit>)
    requires Filled(form) && NamesFit(originals, form) && NoneStray(originals, form) && fields <= form.Keys
    requires forall w | w in fields && IsValueField(w) && KeyFieldOf(w) in form :: KeyFieldOf(w) in fields
    ensures IsRun(originals, form, run) && Visited(run) == fields
    ensures RecordsExactly(originals, form, fields, Outcome(originals, form, run))
    decreases fields
  {
    hide RecordsExactly, NamesFit, NoneStray;
    if fields == {} {
      run := [];
      NothingYet(originals, form);
    } else {
      var f :| f in fields && (IsValueField(f) || forall w | w in fields :: !IsValueField(w));
      var done := fields - {f};
      PartnersPair(f);
      run := StandardRun(originals, form, done);
      var changed := Outcome(originals, form, run);
      ExactRecords(originals, form, done, changed);
      var visit := Visit(f, "");
      if IsKeyField(f) {
        KeyStep(originals, form, done, changed, visit);
      } else if IsValueField(f) {
        visit := Visit(f, if KeyFieldOf(f) in done then form[KeyFieldOf(f)][0] else "");
        StandardPick(originals, form, done, changed, f);
        OwnStep(originals, form, done, changed, visit);
      } else {
        OriginalStep(originals, form, done, changed, visit);
      }
      hide IsRun, Outcome;
      RunGrows(originals, form, run, visit);
      run := run + [visit];
      assert done + {f} == fields;
    }
  }

  lemma ExactRecords(originals: seq<Row>, form: Form, done: set<string>, changed: Changes)
    requires Filled(form) && done <= form.Keys && RecordsExactly(originals, form, done, changed)
    ensures Records(originals, form, done, changed)
  {
  }

  // ---- A stray value ------------------------------------------------------------------------

  // Before w comes, the change that it is to find can be there.
  lemma SourceRun(originals: seq<Row>, form: Form, w: string, x: string) returns (run: seq<Visit>)
    requires Filled(form) && NamesFit(originals, form) && Confuses(originals, form, w, x)
    ensures IsRun(originals, form, run) && Visited(run) <= form.Keys && w !in Visited(run)
    ensures x in Outcome(originals, form, run) && Outcome(originals, form, run)[x].newValue == w
    ensures KeyFieldOf(w) !in form ==> KeyFieldOf(w) !in Outcome(originals, form, run)
  {
    PartnersPair(w);
    PartnersPair(x);
    NoRun(originals, form);
    hide IsRun, Outcome, Visited;
    if IsPlaceholder(form, x) {
      RunGrows(originals, form, [], Visit(ValueFieldOf(x), ""));
      run := [] + [Visit(ValueFieldOf(x), "")];
    } else if NameField(form, x).Some? {
      var k := NameField(form, x).value;
      PartnersPair(k);
      RunGrows(originals, form, [], Visit(k, ""));
      run := [] + [Visit(k, "")];
      RunGrows(originals, form, run, Visit(ValueFieldOf(k), x));
      run := run + [Visit(ValueFieldOf(k), x)];
    } else {
      RunGrows(originals, form, [], Visit(x, ""));
      run := [] + [Visit(x, "")];
    }
  }

  // Once k and its value field have been visited, and if no other key field gives k as a
  // name, it is settled whether k has an entry.
  lemma {:induction false} PresenceStays(originals: seq<Row>, form: Form, run: seq<Visit>, n: nat, k: string)
    requires Filled(form) && IsRun(originals, form, run) && n <= |run| && IsRun(originals, form, run[..n])
    requires IsKeyField(k) && (k in form ==> k in Visited(run[..n]))
    requires ValueFieldOf(k) in form ==> ValueFieldOf(k) in Visited(run[..n])
    requires forall m | m in form && IsKeyField(m) && form[m][0] == k :: m == k
    ensures k in Outcome(originals, form, run) <==> k in Outcome(originals, form, run[..n])
    decreases |run|
  {
    if n == |run| {
      assert run[..n] == run;
    } else {
      var last := run[|run| - 1];
      var rest := run[..|run| - 1];
      assert rest[..n] == run[..n];
      PresenceStays(originals, form, rest, n, k);
      assert Visited(run[..n]) <= Visited(rest);
      PartnersPair(k);
      PartnersPair(last.field);
      assert Outcome(originals, form, run) == Step(originals, form, Outcome(originals, form, rest), last);
    }
  }

  // First of all, w leaves its placeholder.
  lemma StrayFirst(originals: seq<Row>, form: Form, w: string, x: string) returns (run: seq<Visit>)
    requires Filled(form) && NamesFit(originals, form) && IsStray(originals, form, w, x)
    ensures IsFullRun(originals, form, run) && KeyFieldOf(w) in Outcome(originals, form, run)
  {
    PartnersPair(w);
    NoRun(originals, form);
    hide IsRun, Outcome, Visited, NamesFit;
    RunGrows(originals, form, [], Visit(w, ""));
    var first := [] + [Visit(w, "")];
    run := GoOn(originals, form, first, form.Keys);
    assert run[..|first|] == first;
    PresenceStays(originals, form, run, |first|, KeyFieldOf(w));
  }

  // After the change that confuses it, it leaves none.
  lemma StrayLater(originals: seq<Row>, form: Form, w: string, x: string) returns (run: seq<Visit>)
    requires Filled(form) && NamesFit(originals, form) && IsStray(originals, form, w, x)
    ensures IsFullRun(originals, form, run) && KeyFieldOf(w) !in Outcome(originals, form, run)
  {
    PartnersPair(w);
    var source := SourceRun(originals, form, w, x);
    hide IsRun, Outcome, Visited, NamesFit, NameField;
    RunGrows(originals, form, source, Visit(w, x));
    var found := source + [Visit(w, x)];
    run := GoOn(originals, form, found, form.Keys);
    assert run[..|found|] == found;
    PresenceStays(originals, form, run, |found|, KeyFieldOf(w));
  }

  // ---- A value that finds another's change --------------------------------------------------

  lemma ChangeStands(originals: seq<Row>, form: Form, done: set<string>, w: string, x: string)
    requires Filled(form) && NamesFit(originals, form) && Confuses(originals, form, w, x)
    requires done == form.Keys - {w} || done == form.Keys - {w, KeyFieldOf(w)}
    ensures Expect(originals, form, done, x) == Change(originals, form, x)
  {
    PartnersPair(w);
    PartnersPair(x);
    if NameField(form, x).Some? { PartnersPair(NameField(form, x).value); }
  }

  // The empty key is found and taken for nothing, and the value stays under its placeholder.
  lemma EmptyKeyRun(originals: seq<Row>, form: Form, w: string) returns (run: seq<Visit>)
    requires Filled(form) && NamesFit(originals, form) && NoneStray(originals, form)
    requires Confuses(originals, form, w, "") && KeyFieldOf(w) in form
    ensures IsFullRun(originals, form, run) && KeyFieldOf(w) in Outcome(originals, form, run)
  {
    var done := form.Keys - {w};
    PartnersPair(w);
    assert forall v | v in done && IsValueField(v) && KeyFieldOf(v) in form :: KeyFieldOf(v) in done by {
      forall v | v in done && IsValueField(v) && KeyFieldOf(v) in form ensures KeyFieldOf(v) in done {
        PartnersPair(v);
        PartnersPair(KeyFieldOf(v));
      }
    }
    var most := StandardRun(originals, form, done);
    ChangeStands(originals, form, done, w, "");
    assert At(Outcome(originals, form, most), "") == Expect(originals, form, done, "");
    hide IsRun, Outcome, Visited, Expect, Change;
    RunGrows(originals, form, most, Visit(w, ""));
    run := most + [Visit(w, "")];
    assert done + {w} == form.Keys;
  }

  // Another's change is found, and the key field that comes last finds nothing.
  lemma WrongRun(originals: seq<Row>, form: Form, w: string, x: string) returns (run: seq<Visit>)
    requires Filled(form) && NamesFit(originals, form) && NoneStray(originals, form)
    requires Confuses(originals, form, w, x) && x != "" && KeyFieldOf(w) in form
    ensures IsFullRun(originals, form, run)
    ensures var changed, k := Outcome(originals, form, run), KeyFieldOf(w);
            At(changed, x) == Some(NewDiff(form[w]))
            && At(changed, form[k][0]) == Some(Diff("", w, Mark(form[k])))
  {
    var k := KeyFieldOf(w);
    var done := form.Keys - {w, k};
    PartnersPair(w);
    forall v | v in done && IsValueField(v) && KeyFieldOf(v) in form ensures KeyFieldOf(v) in done {
      PartnersPair(v);
    }
    var most := StandardRun(originals, form, done);
    ChangeStands(originals, form, done, w, x);
    NameFieldIs(originals, form, k);
    var before := Outcome(originals, form, most);
    assert At(before, x) == Expect(originals, form, done, x);
    assert At(before, k) == Expect(originals, form, done, k) == None;
    assert x != form[k][0] && x != k;
    run := FindThenName(originals, form, most, w, x);
    assert done + {w, k} == form.Keys;
  }

  // w finds x, and then its key field comes.
  lemma FindThenName(originals: seq<Row>, form: Form, most: seq<Visit>, w: string, x: string) returns (run: seq<Visit>)
    requires Filled(form) && IsRun(originals, form, most)
    requires w in form && IsValueField(w) && KeyFieldOf(w) in form && form[KeyFieldOf(w)][0] != x
    requires w !in Visited(most) && KeyFieldOf(w) !in Visited(most)
    requires var before := Outcome(originals, form, most);
             x != "" && x in before && before[x].newValue == w && KeyFieldOf(w) !in before && x != KeyFieldOf(w)
    ensures IsRun(originals, form, run) && Visited(run) == Visited(most) + {w, KeyFieldOf(w)}
    ensures var changed, k := Outcome(originals, form, run), KeyFieldOf(w);
            At(changed, x) == Some(NewDiff(form[w]))
            && At(changed, form[k][0]) == Some(Diff("", w, Mark(form[k])))
  {
    var k := KeyFieldOf(w);
    PartnersPair(w);
    hide IsRun, Outcome, Visited;
    var before := Outcome(originals, form, most);
    RunGrows(originals, form, most, Visit(w, x));
    var found := most + [Visit(w, x)];
    assert Outcome(originals, form, found) == before[x := NewDiff(form[w])];
    RunGrows(originals, form, found, Visit(k, ""));
    run := found + [Visit(k, "")];
  }

  lemma RightRun(originals: seq<Row>, form: Form) returns (run: seq<Visit>)
    requires Filled(form) && NamesFit(originals, form) && NoneStray(originals, form)
    ensures IsFullRun(originals, form, run)
    ensures forall x :: At(Outcome(originals, form, run), x) == Change(originals, form, x)
  {
    run := StandardRun(originals, form, form.Keys);
  }

  lemma HarmDisagrees(originals: seq<Row>, form: Form, w: string, x: string)
    returns (one: seq<Visit>, other: seq<Visit>)
    requires Filled(form) && NamesFit(originals, form)
    requires Confuses(originals, form, w, x) && !IsHarmless(originals, form, w, x)
    ensures IsFullRun(originals, form, one) && IsFullRun(originals, form, other)
    ensures Outcome(originals, form, one) != Outcome(originals, form, other)
  {
    hide IsFullRun, Outcome, NamesFit;
    if v, y :| IsStray(originals, form, v, y) {
      one := StrayFirst(originals, form, v, y);
      other := StrayLater(originals, form, v, y);
    } else {
      PartnersPair(w);
      var k := KeyFieldOf(w);
      assert !IsStray(originals, form, w, x);
      one := RightRun(originals, form);
      assert At(Outcome(originals, form, one), x) == Change(originals, form, x);
      assert At(Outcome(originals, form, one), k) == Change(originals, form, k);
      if x == "" {
        other := EmptyKeyRun(originals, form, w);
      } else {
        NameFieldIs(originals, form, k);
        assert At(Outcome(originals, form, one), form[k][0]) == Change(originals, form, form[k][0]);
        OwnChange(originals, form, w);
        other := WrongRun(originals, form, w, x);
      }
    }
  }

  lemma OwnChange(originals: seq<Row>, form: Form, w: string)
    requires Filled(form) && NamesFit(originals, form)
    requires w in form && IsValueField(w) && KeyFieldOf(w) in form
    ensures Change(originals, form, form[KeyFieldOf(w)][0]) == Some(NewDiff(form[w]))
  {
    PartnersPair(w);
    NameFieldIs(originals, form, KeyFieldOf(w));
  }

  // So whenever the value of one new key is the name of another's value field, and that
  // other's value is not the same name, the order decides.
  lemma OrderMatters(originals: seq<Row>, form: Form, k: string, l: string)
    returns (one: seq<Visit>, other: seq<Visit>)
    requires Filled(form) && NamesFit(originals, form)
    requires k in form && l in form && k != l && IsKeyField(k) && IsKeyField(l)
    requires ValueFieldOf(k) in form && ValueFieldOf(l) in form
    requires form[ValueFieldOf(k)][0] == ValueFieldOf(l) && form[ValueFieldOf(l)][0] != ValueFieldOf(l)
    ensures IsFullRun(originals, form, one) && IsFullRun(originals, form, other)
    ensures Outcome(originals, form, one) != Outcome(originals, form, other)
  {
    PartnersPair(k);
    PartnersPair(l);
    OwnChange(originals, form, ValueFieldOf(k));
    NameFieldIs(originals, form, k);
    NameFieldIs(originals, form, l);
    one, other := HarmDisagrees(originals, form, ValueFieldOf(l), form[k][0]);
  }
}
