// From the administrator to Helm: what the edit of the global values writes is what the next
// rollout reads, encrypted in between or not.
module EditedRollout {
  import opened Wrappers
  import opened Trees
  import opened Keys
  import opened Values
  import opened Enrichers
  import opened Precedence
  import opened GlobalStore
  import opened GlobalEdit
  import opened Patch

  // The global values as the enricher reads them: each stored key once, with its newest row.
  ghost predicate ReadsGlobals(store: Store, rows: seq<Row>, chart: ChartType) {
    && (forall i, j | 0 <= i < j < |store.globals| :: store.globals[i].key != store.globals[j].key)
    && (forall i | 0 <= i < |store.globals| ::
          Newest(rows, chart, store.globals[i].key) == Some(Stored(store.globals[i].value, store.globals[i].encrypted)))
    && (forall k | Newest(rows, chart, k).Some? :: exists i :: 0 <= i < |store.globals| && store.globals[i].key == k)
  }

  // Nothing else that is stored touches the path.
  predicate StandsAlone(store: Store, airflow: bool, key: string) {
    && NotOverridden(airflow, KeySplit(key))
    && (forall i | 0 <= i < |store.globals| && store.globals[i].key != key ::
          Incomparable(KeySplit(store.globals[i].key), KeySplit(key)))
    && (forall j | 0 <= j < |store.team| :: LeavesAlone(store.team[j], KeySplit(key)))
  }

  // What is stored for the key, decrypted if it is encrypted, is what Helm gets.
  lemma StoredReachesHelm(rows: seq<Row>, store: Store, chartType: ChartType, airflow: bool, chart: Kids, final: Kids,
                          key: string, plain: string)
    requires ReadsGlobals(store, rows, chartType) && StandsAlone(store, airflow, key)
    requires Chain(store, ReleaseEnrichers(airflow), chart) == Ok(final)
    requires Newest(rows, chartType, key).Some?
    requires var s := Newest(rows, chartType, key).value;
             if s.encrypted then store.decrypt(s.value) == Some(plain) else s.value == plain
    requires IsPlainText(store.syntax, plain)
    ensures Lookup(Node(final), KeySplit(key)) == Some(Leaf(Str(plain)))
  {
    hide Chain, Newest, Lookup, IsPlainText, NotOverridden, LeavesAlone, KeySplit;
    var i :| 0 <= i < |store.globals| && store.globals[i].key == key;
    GlobalRowReads(store, airflow, chart, final, i);
  }

  // A new pair of the form.
  lemma AddedReachesHelm(before: seq<Row>, after: seq<Row>, chartType: ChartType, cipher: Cipher, form: Form,
                         key: string, suffix: string, store: Store, airflow: bool, chart: Kids, final: Kids)
    requires Filled(form) && Editable(before, chartType, form) && Edited(before, after, chartType, cipher, form)
    requires key != "action-trigger-resync" && (Newest(before, chartType, key).Some? ==> key in form)
    requires "key" + suffix in form && form["key" + suffix][0] == key && "value" + suffix in form
    requires ReadsGlobals(store, after, chartType) && StandsAlone(store, airflow, key)
    requires Chain(store, ReleaseEnrichers(airflow), chart) == Ok(final)
    requires var entered := form["value" + suffix][0];
             entered != "" && IsPlainText(store.syntax, entered)
             && store.decrypt(cipher.encrypt(entered)) == Some(entered)
    ensures Lookup(Node(final), KeySplit(key)) == Some(Leaf(Str(form["value" + suffix][0])))
  {
    EditAdds(before, after, chartType, cipher, form, key, suffix);
    hide Chain, Newest, Lookup, IsPlainText, Editable, Edited, ReadsGlobals, StandsAlone, KeySplit;
    StoredReachesHelm(after, store, chartType, airflow, chart, final, key, form["value" + suffix][0]);
  }

  // A changed field of a stored key.
  lemma ChangedReachesHelm(before: seq<Row>, after: seq<Row>, chartType: ChartType, cipher: Cipher, form: Form,
                           key: string, store: Store, airflow: bool, chart: Kids, final: Kids)
    requires Filled(form) && Edited(before, after, chartType, cipher, form) && key != "action-trigger-resync"
    requires key in form && !("key" <= key) && !("value" <= key)
    requires Newest(before, chartType, key).Some? && form[key][0] != Newest(before, chartType, key).value.value
    requires forall f | f in form && "key" <= f :: form[f][0] != key
    requires ReadsGlobals(store, after, chartType) && StandsAlone(store, airflow, key)
    requires Chain(store, ReleaseEnrichers(airflow), chart) == Ok(final)
    requires var entered := form[key][0];
             entered != "" && IsPlainText(store.syntax, entered)
             && store.decrypt(cipher.encrypt(entered)) == Some(entered)
    ensures Lookup(Node(final), KeySplit(key)) == Some(Leaf(Str(form[key][0])))
  {
    EditChanges(before, after, chartType, cipher, form, key);
    hide Chain, Newest, Lookup, IsPlainText, Edited, ReadsGlobals, StandsAlone, KeySplit;
    StoredReachesHelm(after, store, chartType, airflow, chart, final, key, form[key][0]);
  }
}
