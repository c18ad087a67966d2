// The confirmed changes, as the confirm page sends them, written to the store.
module Patch {
  import opened Wrappers
  import opened GlobalStore
  import opened GlobalEdit
  import opened Pairing
  import opened Clashes

  const RESYNC := "action-trigger-resync"
  const TICK := "on"

  // Encryption as an abstract pair.
  datatype Cipher = Cipher(encrypt: string -> string, decrypt: string -> Option<string>)

  // ---- The confirm page ----------------------------------------------------------

  function Inputs(d: Diff): (r: seq<string>)
    ensures r != []
  {
    if d.newValue == "" then [""] else if d.encrypted != "" then [d.newValue, TICK] else [d.newValue]
  }

  // What the page posts, and what the handler keeps of it: the resync box is taken out.
  function Posted(changed: Changes, resync: bool): Form {
    var inputs := map k | k in changed :: Inputs(changed[k]);
    if !resync then inputs
    else inputs[RESYNC := (if RESYNC in inputs then inputs[RESYNC] else []) + [TICK]]
  }

  function Confirmed(changed: Changes, resync: bool): Form {
    Posted(changed, resync) - {RESYNC}
  }

  // ---- The store -------------------------------------------------------------------

  function ParseValue(cipher: Cipher, values: seq<string>): Stored
    requires values != []
  {
    if |values| == 2 then Stored(cipher.encrypt(values[0]), true) else Stored(values[0], false)
  }

  function Entry(cipher: Cipher, values: seq<string>): Option<Stored>
    requires values != []
  {
    if values[0] == "" then None else Some(ParseValue(cipher, values))
  }

  ghost predicate Patched(before: seq<Row>, after: seq<Row>, form: Form, done: set<string>, chart: ChartType,
                          cipher: Cipher)
    requires Filled(form) && done <= form.Keys
  {
    forall c, k :: Newest(after, c, k) ==
                   if c == chart && k in done then Entry(cipher, form[k]) else Newest(before, c, k)
  }

  method UpdateGlobalValues(store: Globals, form: Form, chart: ChartType, cipher: Cipher)
    requires Filled(form)
    modifies store
    ensures Patched(old(store.rows), store.rows, form, form.Keys, chart, cipher)
  {
    var todo := form.Keys;
    while todo != {}
      invariant todo <= form.Keys
      invariant Patched(old(store.rows), store.rows, form, form.Keys - todo, chart, cipher)
      decreases todo
    {
      var key :| key in todo;
      var values := form[key];
      ghost var rows := store.rows;
      if values[0] == "" {
        store.Delete(key, chart);
        forall c, k ensures Newest(store.rows, c, k) == if c == chart && k == key then None else Newest(rows, c, k) {
          NewestOfDelete(rows, chart, key, c, k);
        }
      } else {
        var s := ParseValue(cipher, values);
        store.Insert(key, s.value, s.encrypted, chart);
        forall c, k ensures Newest(store.rows, c, k) == if c == chart && k == key then Some(s) else Newest(rows, c, k) {
          NewestOfInsert(rows, Row(key, s.value, chart, s.encrypted), c, k);
        }
      }
      todo := todo - {key};
    }
  }

  // ---- What the form asks for --------------------------------------------------------

  function Entered(cipher: Cipher, values: seq<string>): Option<Stored>
    requires values != []
  {
    if values[0] == "" then None
    else if Mark(values) != "" then Some(Stored(cipher.encrypt(values[0]), true))
    else Some(Stored(values[0], false))
  }

  // What a key field writes under its name: the value of its value field, or, when that is
  // missing, the name of the missing field.
  function NewEntry(cipher: Cipher, form: Form, field: string): Option<Stored>
    requires Filled(form) && field in form && IsKeyField(field)
  {
    if ValueFieldOf(field) in form then Entered(cipher, form[ValueFieldOf(field)])
    else Entered(cipher, [ValueFieldOf(field), Mark(form[field])])
  }

  // What is stored under k once the form has been saved. A stored key that the form leaves
  // out goes. A new name gets its value. A stored key gets the form's value when it differs,
  // and otherwise keeps its row. A value field without its key field is stored under the
  // name of the missing key field. And a stored key whose own name reads as a key or value
  // field is not edited under it.
  ghost function Saved(cipher: Cipher, form: Form, before: Option<Stored>, k: string): Option<Stored>
    requires Filled(form)
  {
    if k == RESYNC then before
    else if before.Some? && k !in form then None
    else if NameField(form, k).Some? then NewEntry(cipher, form, NameField(form, k).value)
    else if IsKeyField(k) then
      if k !in form && ValueFieldOf(k) in form then Entered(cipher, form[ValueFieldOf(k)]) else before
    else if IsValueField(k) then before
    else if before.Some? && form[k][0] != before.value.value then Entered(cipher, form[k])
    else before
  }

  lemma OriginalIsNewest(originals: seq<Row>, rows: seq<Row>, chart: ChartType, k: string)
    requires IsView(originals, rows, chart)
    ensures Original(originals, k) ==
            if Newest(rows, chart, k).Some? then Some(Newest(rows, chart, k).value.value) else None
  {
    OriginalWhere(originals, k);
    if Newest(rows, chart, k).Some? {
      var i :| 0 <= i < |originals| && originals[i].key == k;
    }
  }

  lemma {:induction false} WithDeletedAt(changed: Changes, originals: seq<Row>, form: Form, k: string)
    requires forall i, j | 0 <= i < j < |originals| :: originals[i].key != originals[j].key
    ensures var r := WithDeleted(changed, originals, form);
            if k !in form && Original(originals, k).Some? then
              k in r && r[k] == Diff(Original(originals, k).value, "", "")
            else (k in r <==> k in changed) && (k in r ==> r[k] == changed[k])
    decreases |originals|
  {
    if originals != [] {
      var n := |originals| - 1;
      WithDeletedAt(changed, originals[..n], form, k);
      OriginalSnoc(originals[..n], originals[n], k);
      assert originals == originals[..n] + [originals[n]];
      if originals[n].key == k {
        OriginalWhere(originals[..n], k);
      }
    }
  }

  lemma {:induction false} OriginalSnoc(originals: seq<Row>, row: Row, k: string)
    ensures Original(originals + [row], k) ==
            if Original(originals, k).Some? then Original(originals, k)
            else if row.key == k then Some(row.value) else None
    decreases |originals|
  {
    if originals == [] {
      assert originals + [row] == [row];
    } else {
      assert (originals + [row])[1..] == originals[1..] + [row];
      OriginalSnoc(originals[1..], row, k);
    }
  }

  lemma ConfirmedAt(changed: Changes, resync: bool, k: string)
    ensures var sent := Confirmed(changed, resync);
            (k in sent <==> k in changed && k != RESYNC) && (k in sent ==> sent[k] == Inputs(changed[k]))
  {
  }

  // What is written for a change is what was entered in the form.
  lemma InputsEnter(cipher: Cipher, values: seq<string>, oldValue: string)
    requires values != []
    ensures Entry(cipher, Inputs(Diff(oldValue, values[0], Mark(values)))) == Entered(cipher, values)
    ensures Entry(cipher, Inputs(Diff(oldValue, "", ""))) == None
  {
  }

  // What the whole form changes about k, said of what is stored.
  lemma ChangeIs(originals: seq<Row>, rows: seq<Row>, chart: ChartType, form: Form, k: string)
    requires IsView(originals, rows, chart) && Tidy(originals, form)
    ensures var before, change := Newest(rows, chart, k), Change(originals, form, k);
            if NameField(form, k).Some? then
              var f := NameField(form, k).value;
              change == Some(if ValueFieldOf(f) in form then NewDiff(form[ValueFieldOf(f)])
                             else NewDiff([ValueFieldOf(f), Mark(form[f])]))
            else if IsKeyField(k) then
              change == if k !in form && ValueFieldOf(k) in form then Some(NewDiff(form[ValueFieldOf(k)])) else None
            else if k in form && !IsValueField(k) && before.Some? && form[k][0] != before.value.value then
              change == Some(Diff(before.value.value, form[k][0], Mark(form[k])))
            else change == None
  {
    OriginalIsNewest(originals, rows, chart, k);
    PartnersPair(k);
    if NameField(form, k).Some? {
      NameFieldIs(originals, form, NameField(form, k).value);
      PartnersPair(NameField(form, k).value);
    }
  }

  // Diff then patch: for every tidy form, every order of its fields and every key, what is
  // stored after the confirm page and the update is what the form saves.
  lemma DiffThenPatch(before: seq<Row>, after: seq<Row>, originals: seq<Row>, form: Form, run: seq<Visit>,
                      resync: bool, chart: ChartType, cipher: Cipher, k: string)
    requires IsView(originals, before, chart) && Tidy(originals, form) && IsFullRun(originals, form, run)
    requires var sent := Confirmed(WithDeleted(Outcome(originals, form, run), originals, form), resync);
             Filled(sent) && Patched(before, after, sent, sent.Keys, chart, cipher)
    ensures Newest(after, chart, k) == Saved(cipher, form, Newest(before, chart, k), k)
  {
    var changed := Outcome(originals, form, run);
    var all := WithDeleted(changed, originals, form);
    PairingExact(originals, form, run, k);
    WithDeletedAt(changed, originals, form, k);
    OriginalIsNewest(originals, before, chart, k);
    ConfirmedAt(all, resync, k);
    ChangeIs(originals, before, chart, form, k);
    hide IsFullRun, Outcome, WithDeleted, IsView, Newest, Confirmed, Inputs, Entry, Entered, Original, Change,
         ValuesFit, NamesFit;
    PartnersPair(k);
    var field := NameField(form, k);
    var oldValue := if Newest(before, chart, k).Some? then Newest(before, chart, k).value.value else "";
    InputsEnter(cipher, [""], oldValue);
    if field.Some? {
      var v := ValueFieldOf(field.value);
      InputsEnter(cipher, if v in form then form[v] else [v, Mark(form[field.value])], "");
    } else if IsKeyField(k) && ValueFieldOf(k) in form {
      InputsEnter(cipher, form[ValueFieldOf(k)], "");
    } else if k in form {
      InputsEnter(cipher, form[k], oldValue);
    }
  }

  function Reads(cipher: Cipher, s: Stored): Option<string> {
    if s.encrypted then cipher.decrypt(s.value) else Some(s.value)
  }

  // What was entered is what is read back, decrypted where it was to be encrypted.
  lemma EnteredReads(cipher: Cipher, values: seq<string>)
    requires values != [] && cipher.decrypt(cipher.encrypt(values[0])) == Some(values[0])
    ensures values[0] == "" <==> Entered(cipher, values) == None
    ensures values[0] != "" ==> Reads(cipher, Entered(cipher, values).value) == Some(values[0])
    ensures values[0] != "" ==> (Entered(cipher, values).value.encrypted <==> |values| == 2 && values[1] != "")
  {
  }

  // The form records a change of what is stored under the key.
  ghost predicate IsChanged(form: Form, before: Option<Stored>, k: string)
    requires Filled(form)
  {
    || (before.Some? && k !in form)
    || NameField(form, k).Some?
    || (IsKeyField(k) && k !in form && ValueFieldOf(k) in form)
    || (before.Some? && !IsKeyField(k) && !IsValueField(k) && form[k][0] != before.value.value)
  }

  ghost predicate IsAnyChanged(rows: seq<Row>, chart: ChartType, form: Form)
    requires Filled(form)
  {
    exists k :: IsChanged(form, Newest(rows, chart, k), k)
  }

  lemma RecordedExactly(before: seq<Row>, originals: seq<Row>, form: Form, run: seq<Visit>, chart: ChartType, k: string)
    requires IsView(originals, before, chart) && Tidy(originals, form) && IsFullRun(originals, form, run)
    ensures k in WithDeleted(Outcome(originals, form, run), originals, form) <==>
            IsChanged(form, Newest(before, chart, k), k)
  {
    PairingExact(originals, form, run, k);
    WithDeletedAt(Outcome(originals, form, run), originals, form, k);
    OriginalIsNewest(originals, before, chart, k);
    ChangeIs(originals, before, chart, form, k);
    hide IsView, Newest, WithDeleted, Outcome, IsFullRun, Change, Tidy, Original;
  }

  // ---- The whole edit --------------------------------------------------------------------

  // The form is tidy for what is stored.
  ghost predicate Editable(rows: seq<Row>, chart: ChartType, form: Form) {
    exists originals :: IsView(originals, rows, chart) && Tidy(originals, form)
  }

  ghost predicate Edited(before: seq<Row>, after: seq<Row>, chart: ChartType, cipher: Cipher, form: Form)
    requires Filled(form)
  {
    forall k :: Newest(after, chart, k) == Saved(cipher, form, Newest(before, chart, k), k)
  }

  // ---- The edit, said of the form's own fields ---------------------------------------------

  // A stored key that the form leaves out goes.
  lemma EditRemoves(before: seq<Row>, after: seq<Row>, chart: ChartType, cipher: Cipher, form: Form, k: string)
    requires Filled(form) && Edited(before, after, chart, cipher, form) && k != "action-trigger-resync"
    requires Newest(before, chart, k).Some? && k !in form
    ensures Newest(after, chart, k) == None
  {
    assert Newest(after, chart, k) == Saved(cipher, form, Newest(before, chart, k), k);
    hide Newest, Edited;
  }

  // A key field and a value field of one suffix give the name its value, encrypted when the
  // box is ticked.
  lemma EditAdds(before: seq<Row>, after: seq<Row>, chart: ChartType, cipher: Cipher, form: Form, k: string,
                 suffix: string)
    requires Filled(form) && Editable(before, chart, form) && Edited(before, after, chart, cipher, form)
    requires k != "action-trigger-resync" && (Newest(before, chart, k).Some? ==> k in form)
    requires "key" + suffix in form && form["key" + suffix][0] == k && "value" + suffix in form
    ensures var values := form["value" + suffix];
            Newest(after, chart, k) ==
            if values[0] == "" then None
            else if |values| == 2 && values[1] != "" then Some(Stored(cipher.encrypt(values[0]), true))
            else Some(Stored(values[0], false))
  {
    var originals :| IsView(originals, before, chart) && Tidy(originals, form);
    assert Newest(after, chart, k) == Saved(cipher, form, Newest(before, chart, k), k);
    var field := "key" + suffix;
    assert KEY <= field && field[|KEY|..] == suffix && IsKeyField(field) && ValueFieldOf(field) == "value" + suffix;
    hide Newest, IsView, Edited, ValuesFit;
    NameFieldIs(originals, form, field);
  }

  // The field of a stored key changes it when the text differs, and keeps the row when not.
  lemma EditChanges(before: seq<Row>, after: seq<Row>, chart: ChartType, cipher: Cipher, form: Form, k: string)
    requires Filled(form) && Edited(before, after, chart, cipher, form) && k != "action-trigger-resync"
    requires k in form && !("key" <= k) && !("value" <= k) && Newest(before, chart, k).Some?
    requires forall f | f in form && "key" <= f :: form[f][0] != k
    ensures Newest(after, chart, k) ==
            if form[k][0] == Newest(before, chart, k).value.value then Newest(before, chart, k)
            else if form[k][0] == "" then None
            else if |form[k]| == 2 && form[k][1] != "" then Some(Stored(cipher.encrypt(form[k][0]), true))
            else Some(Stored(form[k][0], false))
  {
    assert Newest(after, chart, k) == Saved(cipher, form, Newest(before, chart, k), k);
    hide Newest, Edited;
  }

  // The name of the resync box is never written.
  lemma EditSparesBox(before: seq<Row>, after: seq<Row>, chart: ChartType, cipher: Cipher, form: Form)
    requires Filled(form) && Edited(before, after, chart, cipher, form)
    ensures Newest(after, chart, "action-trigger-resync") == Newest(before, chart, "action-trigger-resync")
  {
    assert Newest(after, chart, RESYNC) == Saved(cipher, form, Newest(before, chart, RESYNC), RESYNC);
    hide Newest, Edited;
  }

  // A key that is neither stored nor mentioned is not made.
  lemma EditMakesNothing(before: seq<Row>, after: seq<Row>, chart: ChartType, cipher: Cipher, form: Form, k: string)
    requires Filled(form) && Edited(before, after, chart, cipher, form)
    requires Newest(before, chart, k) == None && k !in form && !("key" <= k)
    requires forall f | f in form && "key" <= f :: form[f][0] != k
    ensures Newest(after, chart, k) == None
  {
    assert Newest(after, chart, k) == Saved(cipher, form, Newest(before, chart, k), k);
    hide Newest, Edited;
  }

  // What one run over the form makes of the store, and whether it asks for a resync. With
  // no change there is no confirm page to ask on.
  ghost predicate RunPatches(before: seq<Row>, after: seq<Row>, originals: seq<Row>, form: Form, run: seq<Visit>,
                             tick: bool, chart: ChartType, cipher: Cipher, resync: bool)
    requires Filled(form)
  {
    && IsView(originals, before, chart) && IsFullRun(originals, form, run)
    && var all := WithDeleted(Outcome(originals, form, run), originals, form);
       (resync <==> all != map[] && (tick || RESYNC in all))
       && var sent := Confirmed(all, tick);
          Filled(sent) && Patched(before, after, sent, sent.Keys, chart, cipher)
  }

  // Whether the form is tidy does not depend on the order in which the originals are read.
  lemma TidyForAll(a: seq<Row>, b: seq<Row>, rows: seq<Row>, chart: ChartType, form: Form)
    requires IsView(a, rows, chart) && IsView(b, rows, chart) && Tidy(a, form)
    ensures Tidy(b, form)
  {
    forall k ensures Original(a, k) == Original(b, k) {
      OriginalIsNewest(a, rows, chart, k);
      OriginalIsNewest(b, rows, chart, k);
    }
    forall x ensures Change(a, form, x) == Change(b, form, x) {}
    forall w, x | Confuses(b, form, w, x) ensures IsHarmless(b, form, w, x) {
      assert Confuses(a, form, w, x) && IsHarmless(a, form, w, x);
    }
  }

  lemma PatchEdits(before: seq<Row>, after: seq<Row>, originals: seq<Row>, form: Form, run: seq<Visit>,
                   tick: bool, chart: ChartType, cipher: Cipher, resync: bool)
    requires Filled(form) && Editable(before, chart, form)
    requires RunPatches(before, after, originals, form, run, tick, chart, cipher, resync)
    ensures Edited(before, after, chart, cipher, form)
    ensures resync <==> (tick && IsAnyChanged(before, chart, form))
                        || IsChanged(form, Newest(before, chart, RESYNC), RESYNC)
  {
    hide IsView, Tidy, Newest, WithDeleted, Outcome, IsFullRun, Saved, IsChanged, Patched, Confirmed;
    var other :| IsView(other, before, chart) && Tidy(other, form);
    TidyForAll(other, originals, before, chart, form);
    var all := WithDeleted(Outcome(originals, form, run), originals, form);
    forall k ensures k in all <==> IsChanged(form, Newest(before, chart, k), k) {
      RecordedExactly(before, originals, form, run, chart, k);
    }
    assert all != map[] <==> exists k :: k in all;
    forall k ensures Newest(after, chart, k) == Saved(cipher, form, Newest(before, chart, k), k) {
      DiffThenPatch(before, after, originals, form, run, tick, chart, cipher, k);
    }
  }

  // The confirm page and what it posts. With no change the page is never shown.
  method Confirm(store: Globals, changed: Changes, tick: bool, chart: ChartType, cipher: Cipher)
    returns (resync: bool)
    modifies store
    ensures resync <==> changed != map[] && (tick || "action-trigger-resync" in changed)
    ensures var sent := Confirmed(changed, tick);
            Filled(sent) && Patched(old(store.rows), store.rows, sent, sent.Keys, chart, cipher)
  {
    hide Newest, Inputs;
    resync := false;
    if changed == map[] {
      assert Confirmed(changed, tick) == map[];
    } else {
      var posted := Posted(changed, tick);
      if RESYNC in posted {
        posted := posted - {RESYNC};
        resync := true;
      }
      assert posted == Confirmed(changed, tick);
      UpdateGlobalValues(store, posted, chart, cipher);
    }
  }

  // The whole edit: read, compare, confirm, write. For every form, the store is patched with
  // the outcome of some run; for a tidy one, with what the form saves. Other charts keep
  // what they have.
  method EditGlobalValues(store: Globals, form: Form, tick: bool, chart: ChartType, cipher: Cipher)
    returns (resync: bool)
    requires Filled(form)
    modifies store
    ensures forall c, k | c != chart :: Newest(store.rows, c, k) == Newest(old(store.rows), c, k)
    ensures exists originals, run ::
              RunPatches(old(store.rows), store.rows, originals, form, run, tick, chart, cipher, resync)
    ensures Editable(old(store.rows), chart, form) ==> Edited(old(store.rows), store.rows, chart, cipher, form)
    ensures Editable(old(store.rows), chart, form) ==>
              (resync <==> (tick && IsAnyChanged(old(store.rows), chart, form))
                           || IsChanged(form, Newest(old(store.rows), chart, RESYNC), RESYNC))
  {
    var originals := store.GlobalValuesGet(chart);
    ghost var before := store.rows;
    var changed := FindChangedValues(originals, form);
    ghost var run :| IsFullRun(originals, form, run) && changed == Outcome(originals, form, run);
    changed := FindDeletedValues(changed, originals, form);
    resync := Confirm(store, changed, tick, chart, cipher);
    hide IsFullRun, Outcome, WithDeleted, Newest, Editable, Edited, Inputs, IsChanged, IsView;
    assert RunPatches(before, store.rows, originals, form, run, tick, chart, cipher, resync);
    if Editable(before, chart, form) {
      PatchEdits(before, store.rows, originals, form, run, tick, chart, cipher, resync);
    }
  }

  // ---- A page saved as it was shown --------------------------------------------------------

  // Every stored key is posted with its own value, and nothing else is.
  ghost predicate IsUntouched(rows: seq<Row>, chart: ChartType, form: Form)
    requires Filled(form)
  {
    && (forall k :: k in form <==> Newest(rows, chart, k).Some?)
    && (forall k | k in form :: form[k][0] == Newest(rows, chart, k).value.value)
  }

  // A stored key writes nothing of its own: a key field's name already has what it writes,
  // or is the resync box, and a value field without its key field is empty.
  ghost predicate IsInert(rows: seq<Row>, chart: ChartType, cipher: Cipher, form: Form, k: string)
    requires Filled(form) && k in form
  {
    && (IsKeyField(k) ==>
          form[k][0] == RESYNC || NewEntry(cipher, form, k) == Newest(rows, chart, form[k][0]))
    && (IsValueField(k) && KeyFieldOf(k) !in form ==> form[k][0] == "")
  }

  lemma InertKeeps(before: seq<Row>, chart: ChartType, cipher: Cipher, form: Form, k: string)
    requires Filled(form) && IsUntouched(before, chart, form)
    requires forall f | f in form :: IsInert(before, chart, cipher, form, f)
    ensures Saved(cipher, form, Newest(before, chart, k), k) == Newest(before, chart, k)
  {
    hide Newest;
    PartnersPair(k);
    assert k in form <==> Newest(before, chart, k).Some?;
    if NameField(form, k).Some? {
      assert IsInert(before, chart, cipher, form, NameField(form, k).value);
    } else if IsKeyField(k) && ValueFieldOf(k) in form {
      assert IsInert(before, chart, cipher, form, ValueFieldOf(k));
    }
  }

  lemma NotInertWrites(before: seq<Row>, chart: ChartType, cipher: Cipher, originals: seq<Row>, form: Form, f: string)
    returns (k: string)
    requires Filled(form) && NamesFit(originals, form) && IsUntouched(before, chart, form)
    requires f in form && !IsInert(before, chart, cipher, form, f)
    ensures Saved(cipher, form, Newest(before, chart, k), k) != Newest(before, chart, k)
  {
    hide Newest;
    PartnersPair(f);
    if IsKeyField(f) {
      k := form[f][0];
      NameFieldIs(originals, form, f);
    } else {
      k := KeyFieldOf(f);
      PartnersPair(k);
      NotTheBox(k);
      assert IsPlaceholder(form, k);
    }
    assert k in form <==> Newest(before, chart, k).Some?;
  }

  // Then saving leaves every key as it was, and adds nothing, if and only if every stored
  // key is inert.
  lemma UntouchedExactly(before: seq<Row>, after: seq<Row>, chart: ChartType, cipher: Cipher, originals: seq<Row>,
                         form: Form)
    requires Filled(form) && NamesFit(originals, form) && IsUntouched(before, chart, form)
    requires Edited(before, after, chart, cipher, form)
    ensures (forall k :: Newest(after, chart, k) == Newest(before, chart, k))
            <==> forall k | k in form :: IsInert(before, chart, cipher, form, k)
  {
    hide Newest, IsUntouched, NamesFit, IsInert, Saved;
    if forall k | k in form :: IsInert(before, chart, cipher, form, k) {
      forall k ensures Newest(after, chart, k) == Newest(before, chart, k) {
        InertKeeps(before, chart, cipher, form, k);
      }
    } else {
      var f :| f in form && !IsInert(before, chart, cipher, form, f);
      var k := NotInertWrites(before, chart, cipher, originals, form, f);
    }
  }

  // On any other untouched page the order decides: two stored keys that read as key fields
  // have one value, say, or one has the name of the other for its value.
  lemma UntouchedOrders(rows: seq<Row>, chart: ChartType, originals: seq<Row>, form: Form)
    requires IsView(originals, rows, chart) && Filled(form) && IsUntouched(rows, chart, form)
    requires forall k | IsWaiting(form, k) :: !IsEcho(form, k)
    ensures (forall one, other | IsFullRun(originals, form, one) && IsFullRun(originals, form, other) ::
               Outcome(originals, form, one) == Outcome(originals, form, other))
            <==> NamesFit(originals, form) && ValuesFit(originals, form)
  {
    forall x ensures !IsEdited(originals, form, x) {
      OriginalIsNewest(originals, rows, chart, x);
    }
    hide IsView, IsUntouched, IsWaiting, IsEcho, IsEdited, NamesFit, ValuesFit, IsFullRun, Outcome;
    OrderExactly(originals, form);
  }

  lemma NotTheBox(field: string)
    requires IsKeyField(field)
    ensures field != RESYNC
  {
    assert field[0] == 'k' && RESYNC[0] == 'a';
  }

  // With no stored key that starts as a key or value field does, saving the page as it was
  // shown changes nothing.
  lemma PlainUntouched(before: seq<Row>, after: seq<Row>, chart: ChartType, cipher: Cipher, originals: seq<Row>,
                       form: Form)
    requires IsView(originals, before, chart) && Filled(form) && IsUntouched(before, chart, form)
    requires forall k | k in form :: !IsKeyField(k) && !IsValueField(k)
    ensures Tidy(originals, form)
    ensures Edited(before, after, chart, cipher, form) ==>
              forall k :: Newest(after, chart, k) == Newest(before, chart, k)
  {
    hide Newest, IsView;
    assert forall k | k in form :: IsInert(before, chart, cipher, form, k);
    if Edited(before, after, chart, cipher, form) {
      hide Edited, IsUntouched, IsInert;
      UntouchedExactly(before, after, chart, cipher, originals, form);
    }
  }

  // With one it does: saving the page untouched makes a new global value, named by the
  // stored value, whose value is the name of a field that the page never had.
  lemma LoneKeyAdds(before: seq<Row>, after: seq<Row>, chart: ChartType, cipher: Cipher, originals: seq<Row>,
                    form: Form, key: string, value: string)
    requires before == [Row(key, value, chart, false)] && IsView(originals, before, chart)
    requires IsKeyField(key) && value != "" && !IsKeyField(value) && value != RESYNC
    requires form == map[key := [value]]
    ensures Filled(form) && IsUntouched(before, chart, form) && Tidy(originals, form) && !Complete(form)
    ensures Newest(before, chart, value) == None
    ensures Edited(before, after, chart, cipher, form) ==>
              Newest(after, chart, key) == Newest(before, chart, key)
              && Newest(after, chart, value) == Some(Stored(ValueFieldOf(key), false))
  {
    PartnersPair(key);
    assert before[..0] == [];
    assert Newest(before, chart, key) == Some(Stored(value, false));
    assert forall k | k != key :: Newest(before, chart, k) == None;
    hide Newest, IsView;
    NameFieldIs(originals, form, key);
    assert NameField(form, key) == None;
    if Edited(before, after, chart, cipher, form) {
      assert Newest(after, chart, value) == Saved(cipher, form, Newest(before, chart, value), value);
      assert Newest(after, chart, key) == Saved(cipher, form, Newest(before, chart, key), key);
      NotTheBox(key);
    }
  }

  // A global value "abc" stored under "keyring", say.
  lemma KeyringAdds(after: seq<Row>, chart: ChartType, cipher: Cipher, originals: seq<Row>)
    requires IsView(originals, [Row("keyring", "abc", chart, false)], chart)
    ensures var before, form := [Row("keyring", "abc", chart, false)], map["keyring" := ["abc"]];
            Filled(form) && IsUntouched(before, chart, form) && Tidy(originals, form) && !Complete(form)
            && (Edited(before, after, chart, cipher, form) ==>
                  Newest(after, chart, "abc") == Some(Stored("valuering", false)))
  {
    assert IsKeyField("keyring") && ValueFieldOf("keyring") == "valuering" by {
      assert "keyring" == KEY + "ring" && "keyring"[3..] == "ring" && VALUE + "ring" == "valuering";
    }
    assert !IsKeyField("abc") && "abc" != RESYNC by { assert "abc"[0] == 'a' && |RESYNC| == 21; }
    hide Newest, IsView, Tidy, Edited, IsUntouched, Complete;
    LoneKeyAdds([Row("keyring", "abc", chart, false)], after, chart, cipher, originals, map["keyring" := ["abc"]],
                "keyring", "abc");
  }
}
