// Exactly when the order in which the form's fields come does not matter.
module Pairing {
  import opened Wrappers
  import opened GlobalStore
  import opened GlobalEdit

  // A name under which the loop may keep a value until its key field comes.
  predicate IsPlaceholder(form: Form, x: string) {
    IsKeyField(x) && ValueFieldOf(x) in form
  }

  // A field of a stored key whose value differs.
  predicate IsEdited(originals: seq<Row>, form: Form, x: string)
    requires Filled(form)
  {
    x in form && !IsKeyField(x) && !IsValueField(x)
    && Original(originals, x).Some? && Original(originals, x).value != form[x][0]
  }

  // New names are not empty if there is a value to go with them, not placeholders, not other
  // key fields, not edited at the same time, and differ.
  predicate NamesFit(originals: seq<Row>, form: Form)
    requires Filled(form)
  {
    && (forall k | k in form && IsKeyField(k) ::
          var name := form[k][0];
          && (name == "" ==> ValueFieldOf(k) !in form)
          && !IsPlaceholder(form, name)
          && (IsKeyField(name) && name in form ==> name == k)
          && !IsEdited(originals, form, name))
    && (forall j, k | j in form && k in form && j != k && IsKeyField(j) && IsKeyField(k) :: form[j][0] != form[k][0])
  }

  predicate Complete(form: Form) {
    forall k | k in form ::
      (IsKeyField(k) ==> ValueFieldOf(k) in form) && (IsValueField(k) ==> KeyFieldOf(k) in form)
  }

  // ---- What a partial run is to record -------------------------------------------------

  predicate Names(form: Form, k: string, x: string)
    requires Filled(form)
  {
    k in form && IsKeyField(k) && form[k][0] == x
  }

  // The key field that gives x as the new name.
  ghost function NameField(form: Form, x: string): (r: Option<string>)
    requires Filled(form)
    ensures r.Some? ==> Names(form, r.value, x)
    ensures r == None ==> forall k :: !Names(form, k, x)
  {
    if k :| Names(form, k, x) then Some(k) else None
  }

  // The entry under x once the fields in done have been visited.
  ghost function Expect(originals: seq<Row>, form: Form, done: set<string>, x: string): Option<Diff>
    requires Filled(form) && done <= form.Keys
  {
    if IsPlaceholder(form, x) then
      if x !in done && ValueFieldOf(x) in done then Some(NewDiff(form[ValueFieldOf(x)])) else None
    else if NameField(form, x).Some? then
      var k := NameField(form, x).value;
      if k !in done then None
      else if ValueFieldOf(k) in done then Some(NewDiff(form[ValueFieldOf(k)]))
      else Some(Diff("", ValueFieldOf(k), Mark(form[k])))
    else if x in done && IsEdited(originals, form, x) then
      Some(Diff(Original(originals, x).value, form[x][0], Mark(form[x])))
    else None
  }

  // The change of x that the whole form makes. A name without its value gets the name of
  // the missing value field, and a value without its name stays under its placeholder.
  ghost function Change(originals: seq<Row>, form: Form, x: string): Option<Diff>
    requires Filled(form)
  {
    Expect(originals, form, form.Keys, x)
  }

  function At(changed: Changes, x: string): Option<Diff> {
    if x in changed then Some(changed[x]) else None
  }

  ghost predicate RecordsExactly(originals: seq<Row>, form: Form, done: set<string>, changed: Changes)
    requires Filled(form) && done <= form.Keys
  {
    forall x :: At(changed, x) == Expect(originals, form, done, x)
  }

  // ---- When a value is taken for the name of a value field -----------------------------

  // The entries that the value field w is to find.
  predicate IsOwn(form: Form, w: string, x: string)
    requires Filled(form) && IsValueField(w)
  {
    x == KeyFieldOf(w) || Names(form, KeyFieldOf(w), x)
  }

  // The change of x has the name of a value field, not its own, for its new value.
  ghost predicate Confuses(originals: seq<Row>, form: Form, w: string, x: string)
    requires Filled(form)
  {
    w in form && IsValueField(w) && !IsOwn(form, w, x)
    && Change(originals, form, x).Some? && Change(originals, form, x).value.newValue == w
  }

  // A value field that does not need its placeholder: its value is its own name.
  predicate IsLoose(form: Form, w: string)
    requires Filled(form) && w in form && IsValueField(w)
  {
    KeyFieldOf(w) in form && NewDiff(form[w]) == Diff("", w, Mark(form[KeyFieldOf(w)]))
  }

  // Finding x then does no harm. The empty key counts as not found.
  ghost predicate IsHarmless(originals: seq<Row>, form: Form, w: string, x: string)
    requires Filled(form) && Confuses(originals, form, w, x)
  {
    if x == "" then KeyFieldOf(w) !in form
    else IsLoose(form, w) && Change(originals, form, x).value == NewDiff(form[w])
  }

  ghost predicate ValuesFit(originals: seq<Row>, form: Form)
    requires Filled(form)
  {
    forall w, x | Confuses(originals, form, w, x) :: IsHarmless(originals, form, w, x)
  }

  ghost predicate Tidy(originals: seq<Row>, form: Form) {
    Filled(form) && NamesFit(originals, form) && ValuesFit(originals, form)
  }

  // A loose value field may be visited without leaving its placeholder.
  ghost predicate MayLack(form: Form, done: set<string>, x: string)
    requires Filled(form)
  {
    x in form && IsKeyField(x) && x !in done
    && ValueFieldOf(x) in done && ValueFieldOf(x) in form && IsValueField(ValueFieldOf(x))
    && IsLoose(form, ValueFieldOf(x))
  }

  ghost predicate Records(originals: seq<Row>, form: Form, done: set<string>, changed: Changes)
    requires Filled(form) && done <= form.Keys
  {
    forall x ::
      At(changed, x) == Expect(originals, form, done, x) || (MayLack(form, done, x) && x !in changed)
  }

  lemma NameFieldIs(originals: seq<Row>, form: Form, k: string)
    requires Filled(form) && NamesFit(originals, form) && k in form && IsKeyField(k)
    ensures NameField(form, form[k][0]) == Some(k)
  {
    assert Names(form, k, form[k][0]);
  }

  // What a value field can find: the entry of its own key field, or a change that confuses.
  lemma Found(originals: seq<Row>, form: Form, done: set<string>, changed: Changes, w: string, x: string)
    returns (y: string)
    requires Filled(form) && NamesFit(originals, form) && done <= form.Keys
    requires Records(originals, form, done, changed)
    requires w in form && w !in done && IsValueField(w) && x in changed && changed[x].newValue == w
    ensures !(KeyFieldOf(w) in done && x == form[KeyFieldOf(w)][0]) ==>
              Confuses(originals, form, w, y) && Change(originals, form, y) == Some(changed[x])
    ensures x == "" ==> y == ""
    ensures y == "" ==> x == ""
  {
    assert At(changed, x) == Expect(originals, form, done, x);
    PartnersPair(w);
    PartnersPair(x);
    y := x;
    if IsPlaceholder(form, x) && x in form {
      y := form[x][0];
      NameFieldIs(originals, form, x);
    } else if !IsPlaceholder(form, x) && NameField(form, x).Some? {
      var k := NameField(form, x).value;
      PartnersPair(k);
    }
  }

  lemma KeyStep(originals: seq<Row>, form: Form, done: set<string>, changed: Changes, v: Visit)
    requires Filled(form) && NamesFit(originals, form) && done <= form.Keys
    requires Records(originals, form, done, changed)
    requires v.field in form && v.field !in done && IsKeyField(v.field)
    ensures Records(originals, form, done + {v.field}, Step(originals, form, changed, v))
    ensures RecordsExactly(originals, form, done, changed) ==>
              RecordsExactly(originals, form, done + {v.field}, Step(originals, form, changed, v))
  {
    hide NameField, Original, CanPick;
    var k, name := v.field, form[v.field][0];
    var after := Step(originals, form, changed, v);
    NameFieldIs(originals, form, k);
    PartnersPair(k);
    assert At(changed, k) == Expect(originals, form, done, k) || MayLack(form, done, k);
    forall x
      ensures At(after, x) == Expect(originals, form, done + {k}, x) || (MayLack(form, done + {k}, x) && x !in after)
      ensures RecordsExactly(originals, form, done, changed) ==> At(after, x) == Expect(originals, form, done + {k}, x)
    {
      assert At(changed, x) == Expect(originals, form, done, x) || (MayLack(form, done, x) && x !in changed);
      PartnersPair(x);
      if x != k && x != name {
        if NameField(form, x).Some? { assert NameField(form, x).value != k; }
      }
    }
  }

  // A value field that finds its own entry, or nothing when its key field is still to come.
  lemma OwnStep(originals: seq<Row>, form: Form, done: set<string>, changed: Changes, v: Visit)
    requires Filled(form) && NamesFit(originals, form) && done <= form.Keys
    requires Records(originals, form, done, changed)
    requires v.field in form && v.field !in done && IsValueField(v.field)
    requires v.picked == if KeyFieldOf(v.field) in done then form[KeyFieldOf(v.field)][0] else ""
    ensures Records(originals, form, done + {v.field}, Step(originals, form, changed, v))
    ensures RecordsExactly(originals, form, done, changed) ==>
              RecordsExactly(originals, form, done + {v.field}, Step(originals, form, changed, v))
  {
    hide NameField, CanPick, Original;
    var w := v.field;
    var k := KeyFieldOf(w);
    var after := Step(originals, form, changed, v);
    PartnersPair(w);
    if k in done { NameFieldIs(originals, form, k); }
    forall x
      ensures At(after, x) == Expect(originals, form, done + {w}, x) || (MayLack(form, done + {w}, x) && x !in after)
      ensures RecordsExactly(originals, form, done, changed) ==> At(after, x) == Expect(originals, form, done + {w}, x)
    {
      assert At(changed, x) == Expect(originals, form, done, x) || (MayLack(form, done, x) && x !in changed);
      PartnersPair(x);
      if NameField(form, x).Some? { PartnersPair(NameField(form, x).value); }
    }
  }

  // A loose value field that finds a change equal to its own leaves everything as it is.
  lemma StrayStep(originals: seq<Row>, form: Form, done: set<string>, changed: Changes, v: Visit)
    requires Filled(form) && NamesFit(originals, form) && done <= form.Keys
    requires Records(originals, form, done, changed)
    requires v.field in form && v.field !in done && IsValueField(v.field) && IsLoose(form, v.field)
    requires v.picked != "" && v.picked in changed && changed[v.picked] == NewDiff(form[v.field])
    ensures Records(originals, form, done + {v.field}, Step(originals, form, changed, v))
  {
    hide NameField, CanPick, Original;
    var w := v.field;
    var k := KeyFieldOf(w);
    var after := Step(originals, form, changed, v);
    PartnersPair(w);
    assert after == changed;
    NameFieldIs(originals, form, k);
    forall x
      ensures At(after, x) == Expect(originals, form, done + {w}, x) || (MayLack(form, done + {w}, x) && x !in after)
    {
      assert At(changed, x) == Expect(originals, form, done, x) || (MayLack(form, done, x) && x !in changed);
      PartnersPair(x);
      if NameField(form, x).Some? { PartnersPair(NameField(form, x).value); }
    }
  }

  lemma ValueStep(originals: seq<Row>, form: Form, done: set<string>, changed: Changes, v: Visit)
    requires Tidy(originals, form) && done <= form.Keys && Records(originals, form, done, changed)
    requires v.field in form && v.field !in done && IsValueField(v.field) && CanPick(changed, v.field, v.picked)
    ensures Records(originals, form, done + {v.field}, Step(originals, form, changed, v))
  {
    var w := v.field;
    var k := KeyFieldOf(w);
    PartnersPair(w);
    var own := if k in done then form[k][0] else "";
    if k in done { OwnWaits(originals, form, done, changed, w); }
    if v.picked in changed && changed[v.picked].newValue == w {
      var y := Found(originals, form, done, changed, w, v.picked);
      hide Confuses, IsHarmless, Expect, Records;
      if k in done && v.picked == own {
        OwnStep(originals, form, done, changed, v);
      } else {
        HarmlessMeans(originals, form, w, y);
        if v.picked == "" {
          OwnStep(originals, form, done, changed, v);
        } else {
          StrayStep(originals, form, done, changed, v);
        }
      }
    } else {
      hide Records, Expect;
      OwnStep(originals, form, done, changed, v);
    }
  }

  lemma HarmlessMeans(originals: seq<Row>, form: Form, w: string, x: string)
    requires Tidy(originals, form) && Confuses(originals, form, w, x)
    ensures if x == "" then KeyFieldOf(w) !in form
            else IsLoose(form, w) && Change(originals, form, x) == Some(NewDiff(form[w]))
  {
    assert IsHarmless(originals, form, w, x);
  }

  // Once its key field has come, the entry of a value field is there to be found.
  lemma OwnWaits(originals: seq<Row>, form: Form, done: set<string>, changed: Changes, w: string)
    requires Filled(form) && NamesFit(originals, form) && done <= form.Keys
    requires Records(originals, form, done, changed)
    requires w in form && w !in done && IsValueField(w) && KeyFieldOf(w) in done
    ensures var name := form[KeyFieldOf(w)][0];
            name != "" && name in changed && changed[name].newValue == w
  {
    PartnersPair(w);
    NameFieldIs(originals, form, KeyFieldOf(w));
    var name := form[KeyFieldOf(w)][0];
    assert At(changed, name) == Expect(originals, form, done, name) || MayLack(form, done, name);
  }

  lemma OriginalStep(originals: seq<Row>, form: Form, done: set<string>, changed: Changes, v: Visit)
    requires Filled(form) && NamesFit(originals, form) && done <= form.Keys
    requires Records(originals, form, done, changed)
    requires v.field in form && v.field !in done && !IsKeyField(v.field) && !IsValueField(v.field)
    ensures Records(originals, form, done + {v.field}, Step(originals, form, changed, v))
    ensures RecordsExactly(originals, form, done, changed) ==>
              RecordsExactly(originals, form, done + {v.field}, Step(originals, form, changed, v))
  {
    hide IsKeyField, IsValueField, ValueFieldOf, KeyFieldOf;
    var after := Step(originals, form, changed, v);
    forall x
      ensures At(after, x) == Expect(originals, form, done + {v.field}, x)
              || (MayLack(form, done + {v.field}, x) && x !in after)
      ensures RecordsExactly(originals, form, done, changed) ==>
                At(after, x) == Expect(originals, form, done + {v.field}, x)
    {
      assert At(changed, x) == Expect(originals, form, done, x) || (MayLack(form, done, x) && x !in changed);
      PartnersPair(x);
      if NameField(form, x).Some? { PartnersPair(NameField(form, x).value); }
    }
  }

  lemma NothingYet(originals: seq<Row>, form: Form)
    requires Filled(form)
    ensures RecordsExactly(originals, form, {}, map[]) && Records(originals, form, {}, map[])
  {
    forall x ensures Expect(originals, form, {}, x) == None {}
  }

  lemma {:induction false} RunRecords(originals: seq<Row>, form: Form, run: seq<Visit>)
    requires Tidy(originals, form) && IsRun(originals, form, run)
    ensures Visited(run) <= form.Keys
    ensures Records(originals, form, Visited(run), Outcome(originals, form, run))
    decreases |run|
  {
    if run == [] {
      NothingYet(originals, form);
    } else {
      var n := |run| - 1;
      var v := run[n];
      RunRecords(originals, form, run[..n]);
      var done, changed := Visited(run[..n]), Outcome(originals, form, run[..n]);
      assert run == run[..n] + [v];
      assert Visited(run) == done + {v.field};
      PartnersPair(v.field);
      hide Records, ValuesFit, NamesFit;
      if IsKeyField(v.field) {
        KeyStep(originals, form, done, changed, v);
      } else if IsValueField(v.field) {
        ValueStep(originals, form, done, changed, v);
      } else {
        OriginalStep(originals, form, done, changed, v);
      }
    }
  }

  // Every run over a whole tidy form makes the form's changes, and so the order does not
  // matter.
  lemma PairingExact(originals: seq<Row>, form: Form, run: seq<Visit>, x: string)
    requires Tidy(originals, form) && IsFullRun(originals, form, run)
    ensures At(Outcome(originals, form, run), x) == Change(originals, form, x)
  {
    RunRecords(originals, form, run);
    assert !MayLack(form, form.Keys, x);
  }

  lemma OrderIndependent(originals: seq<Row>, form: Form, run: seq<Visit>, other: seq<Visit>)
    requires Tidy(originals, form)
    requires IsFullRun(originals, form, run) && IsFullRun(originals, form, other)
    ensures Outcome(originals, form, run) == Outcome(originals, form, other)
  {
    var a, b := Outcome(originals, form, run), Outcome(originals, form, other);
    forall x ensures At(a, x) == At(b, x) {
      PairingExact(originals, form, run, x);
      PairingExact(originals, form, other, x);
    }
    SameEntries(a, b);
  }

  lemma SameEntries(a: Changes, b: Changes)
    requires forall x :: At(a, x) == At(b, x)
    ensures a == b
  {
    forall x | x in a.Keys + b.Keys ensures x in a && x in b && a[x] == b[x] {
      assert At(a, x) == At(b, x);
    }
    assert a.Keys == b.Keys;
  }

  // ---- Values without names and names without values ------------------------------------

  // A value that stayed under its placeholder, or the name of a missing value field.
  ghost predicate IsLeftOver(form: Form, x: string, d: Diff)
    requires Filled(form)
  {
    IsPlaceholder(form, x)
    || exists k :: Names(form, k, x) && d.newValue == ValueFieldOf(k) && ValueFieldOf(k) !in form
  }

  lemma CompleteLeavesNothing(originals: seq<Row>, form: Form, run: seq<Visit>, x: string)
    requires Tidy(originals, form) && IsFullRun(originals, form, run)
    requires Complete(form) && x in Outcome(originals, form, run)
    ensures !IsLeftOver(form, x, Outcome(originals, form, run)[x])
  {
    PairingExact(originals, form, run, x);
    PartnersPair(x);
  }

  lemma IncompleteLeaves(originals: seq<Row>, form: Form, run: seq<Visit>) returns (x: string)
    requires Tidy(originals, form) && IsFullRun(originals, form, run)
    requires !Complete(form)
    ensures x in Outcome(originals, form, run) && IsLeftOver(form, x, Outcome(originals, form, run)[x])
  {
    var k :| k in form && ((IsKeyField(k) && ValueFieldOf(k) !in form) || (IsValueField(k) && KeyFieldOf(k) !in form));
    PartnersPair(k);
    x := if IsKeyField(k) then form[k][0] else KeyFieldOf(k);
    PairingExact(originals, form, run, x);
    if IsKeyField(k) {
      NameFieldIs(originals, form, k);
      assert Names(form, k, x);
    }
  }

  // Nothing is left over exactly when every key field has its value field and the other
  // way round.
  lemma LeftOverExactly(originals: seq<Row>, form: Form, run: seq<Visit>)
    requires Tidy(originals, form) && IsFullRun(originals, form, run)
    ensures Complete(form) <==>
            forall x | x in Outcome(originals, form, run) :: !IsLeftOver(form, x, Outcome(originals, form, run)[x])
  {
    hide Complete, IsRun, Outcome, NamesFit, ValuesFit;
    if Complete(form) {
      forall x | x in Outcome(originals, form, run)
        ensures !IsLeftOver(form, x, Outcome(originals, form, run)[x])
      {
        CompleteLeavesNothing(originals, form, run, x);
      }
    } else {
      var x := IncompleteLeaves(originals, form, run);
    }
  }
}
