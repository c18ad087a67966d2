// Nested Helm value maps as the program holds them: maps that refer to maps, changed in
// place. Each method is tied to the tree operation it performs.
module ValueMaps {
  import opened Trees

  datatype Slot = Scalar(v: Value) | Sub(m: ValueMap)

  class ValueMap {
    var entries: map<string, Slot>
    ghost var Repr: set<ValueMap>

    ghost predicate Valid()
      reads this, Repr
      ensures Valid() ==> this in Repr
      decreases Repr
    {
      && this in Repr
      && (forall k | k in entries && entries[k].Sub? ::
            entries[k].m in Repr && entries[k].m.Repr <= Repr && this !in entries[k].m.Repr && entries[k].m.Valid())
      && (forall j, k | j in entries && k in entries && j != k && entries[j].Sub? && entries[k].Sub? ::
            entries[j].m.Repr !! entries[k].m.Repr)
    }

    ghost function View(): Kids
      requires Valid()
      reads this, Repr
      decreases Repr
    {
      map k | k in entries :: match entries[k] case Scalar(v) => Leaf(v) case Sub(n) => Node(n.View())
    }

    constructor ()
      ensures Valid() && Repr == {this} && fresh(this) && View() == map[]
    {
      entries := map[];
      Repr := {this};
    }

    // Store a scalar under k.
    method Put(k: string, v: Value)
      requires Valid()
      modifies this
      ensures Valid() && Repr == old(Repr)
      ensures View() == old(View())[k := Leaf(v)]
    {
      entries := entries[k := Scalar(v)];
    }

    // Store a map under k, taking it over.
    method Attach(k: string, child: ValueMap)
      requires Valid() && child.Valid() && Repr !! child.Repr
      modifies this
      ensures Valid() && Repr == old(Repr) + child.Repr
      ensures View() == old(View())[k := Node(child.View())]
      ensures k in entries && entries[k] == Sub(child)
      ensures child.Valid() && child.View() == old(child.View())
    {
      entries := entries[k := Sub(child)];
      Repr := Repr + child.Repr;
    }

    // The map under k, made if there is none.
    method Ensure(k: string) returns (child: ValueMap)
      requires Valid()
      modifies this
      ensures Valid() && fresh(Repr - old(Repr))
      ensures k in entries && entries[k] == Sub(child)
      ensures View() == old(View())[k := Node(SubKids(old(View()), k))]
      ensures child.Valid() && child.View() == SubKids(old(View()), k)
    {
      if k in entries && entries[k].Sub? {
        child := entries[k].m;
      } else {
        child := new ValueMap();
        Attach(k, child);
      }
    }

    // Own what the map under k has come to own.
    ghost method Absorb(k: string, child: ValueMap)
      requires this in Repr && k in entries && entries[k] == Sub(child) && this !in child.Repr && child.Valid()
      requires forall j | j in entries && j != k && entries[j].Sub? ::
                 var m := entries[j].m;
                 m in Repr && m.Repr <= Repr && this !in m.Repr && m.Valid() && m.Repr !! child.Repr
      requires forall i, j | i in entries && j in entries && i != j && entries[i].Sub? && entries[j].Sub? ::
                 entries[i].m.Repr !! entries[j].m.Repr
      modifies this`Repr
      ensures Repr == old(Repr) + child.Repr && Valid()
      ensures child.Repr == old(child.Repr) && child.Valid() && child.View() == old(child.View())
      ensures forall j | j in entries && j != k && entries[j].Sub? ::
                entries[j].m.Valid() && entries[j].m.View() == old(entries[j].m.View())
    {
      Repr := Repr + child.Repr;
    }
  }

  // A fresh heap copy of a tree of values, as the parser makes them.
  method Build(kids: Kids) returns (m: ValueMap)
    ensures m.Valid() && fresh(m.Repr) && m.View() == kids
    decreases Node(kids), 0
  {
    m := new ValueMap();
    var todo := kids.Keys;
    while todo != {}
      invariant m.Valid() && fresh(m.Repr) && todo <= kids.Keys
      invariant m.View().Keys == kids.Keys - todo && forall j | j in m.View() :: m.View()[j] == kids[j]
      decreases todo
    {
      var k :| k in todo;
      todo := todo - {k};
      Store(m, k, kids[k]);
    }
  }

  // chart[key] = value. A map given as the value is built fresh.
  method Store(chart: ValueMap, key: string, value: Tree)
    requires chart.Valid()
    modifies chart
    ensures chart.Valid() && fresh(chart.Repr - old(chart.Repr))
    ensures chart.View() == old(chart.View())[key := value]
    decreases value, 1
  {
    match value {
      case Leaf(v) =>
        chart.Put(key, v);
      case Node(kids) =>
        var m := Build(kids);
        chart.Attach(key, m);
    }
  }

  // Set the value at a path of keys, making maps on the way.
  method SetChartValue(keys: Path, value: Tree, chart: ValueMap)
    requires keys != [] && chart.Valid()
    modifies chart.Repr
    ensures chart.Valid() && fresh(chart.Repr - old(chart.Repr))
    ensures chart.View() == SetPath(old(chart.View()), keys, value)
    decreases |keys|, 1
  {
    if |keys| > 1 {
      var child := chart.Ensure(keys[0]);
      SetBelow(keys, value, chart, child);
    } else {
      Store(chart, keys[0], value);
    }
  }

  // The same, with the map for the first key already there.
  method SetBelow(keys: Path, value: Tree, chart: ValueMap, child: ValueMap)
    requires |keys| > 1 && chart.Valid() && keys[0] in chart.entries && chart.entries[keys[0]] == Sub(child)
    modifies chart.Repr
    ensures chart.Valid() && fresh(chart.Repr - old(chart.Repr))
    ensures chart.View() == old(chart.View())[keys[0] := Node(SetPath(old(child.View()), keys[1..], value))]
    decreases |keys|, 0
  {
    hide SetPath, SubKids;
    SetChartValue(keys[1..], value, child);
    chart.Absorb(keys[0], child);
  }

  // The merge with only some of custom's keys done.
  function MergeSome(base: Kids, custom: Kids, done: set<string>): Kids {
    map k | k in base.Keys + custom.Keys * done ::
      if k in custom && k in done then MergeEntry(base, custom, k) else base[k]
  }

  lemma MergeOneMore(base: Kids, custom: Kids, done: set<string>, k: string)
    requires k in custom && k !in done
    ensures MergeSome(base, custom, done + {k}) == MergeSome(base, custom, done)[k := MergeEntry(base, custom, k)]
    ensures MergeEntry(MergeSome(base, custom, done), custom, k) == MergeEntry(base, custom, k)
  {
    assert SubKids(MergeSome(base, custom, done), k) == SubKids(base, k);
  }

  // mergeMaps: whatever the order of the keys, base becomes the merge, custom is left as it
  // is, and the two share no map afterwards.
  method MergeMaps(base: ValueMap, custom: ValueMap)
    requires base.Valid() && custom.Valid() && base.Repr !! custom.Repr
    modifies base.Repr
    ensures base.Valid() && fresh(base.Repr - old(base.Repr))
    ensures custom.Repr == old(custom.Repr) && custom.Valid() && custom.View() == old(custom.View())
    ensures base.Repr !! custom.Repr
    ensures base.View() == Merge(old(base.View()), custom.View())
    decreases custom.Repr, 2
  {
    hide MergeEntry;
    ghost var b, c := base.View(), custom.View();
    ghost var done := {};
    var todo := custom.entries.Keys;
    while todo != {}
      invariant base.Valid() && fresh(base.Repr - old(base.Repr))
      invariant custom.Repr == old(custom.Repr) && custom.Valid() && custom.View() == c
      invariant done !! todo && done + todo == custom.entries.Keys
      invariant base.View() == MergeSome(b, c, done)
      decreases todo
    {
      var k :| k in todo;
      todo := todo - {k};
      MergeOneMore(b, c, done, k);
      MergeKey(base, custom, k);
      done := done + {k};
    }
  }

  // One key of custom.
  method MergeKey(base: ValueMap, custom: ValueMap, k: string)
    requires base.Valid() && custom.Valid() && base.Repr !! custom.Repr && k in custom.entries
    modifies base.Repr
    ensures base.Valid() && fresh(base.Repr - old(base.Repr))
    ensures custom.Repr == old(custom.Repr) && custom.Valid() && custom.View() == old(custom.View())
    ensures base.View() == old(base.View())[k := MergeEntry(old(base.View()), custom.View(), k)]
    decreases custom.Repr, 1
  {
    hide Merge;
    if custom.entries[k].Sub? {
      MergeUnder(base, k, custom.entries[k].m);
    } else {
      base.Put(k, custom.entries[k].v);
    }
  }

  // Merge a map into the one under k, made if there is none.
  method MergeUnder(base: ValueMap, k: string, custom: ValueMap)
    requires base.Valid() && custom.Valid() && base.Repr !! custom.Repr
    modifies base.Repr
    ensures base.Valid() && fresh(base.Repr - old(base.Repr))
    ensures base.View() ==
            old(base.View())[k := Node(Merge(SubKids(old(base.View()), k), old(custom.View())))]
    decreases custom.Repr, 4
  {
    hide Merge, SubKids;
    var child := base.Ensure(k);
    MergeBelow(base, k, child, custom);
  }

  method MergeBelow(base: ValueMap, k: string, child: ValueMap, custom: ValueMap)
    requires base.Valid() && custom.Valid() && base.Repr !! custom.Repr
    requires k in base.entries && base.entries[k] == Sub(child)
    modifies base.Repr
    ensures base.Valid() && fresh(base.Repr - old(base.Repr))
    ensures base.View() == old(base.View())[k := Node(Merge(old(child.View()), old(custom.View())))]
    decreases custom.Repr, 3
  {
    hide Merge, SubKids;
    MergeMaps(child, custom);
    base.Absorb(k, child);
  }
}
