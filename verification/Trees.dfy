// Helm values as immutable trees: setting a path, deep merge, and what a lookup finds
// afterwards.
module Trees {
  import opened Wrappers

  datatype Tree = Leaf(v: Value) | Node(kids: Kids)

  datatype Value = Null | Bool(b: bool) | Int(n: int) | Float(text: string) | Str(s: string) | List(items: seq<Tree>)

  type Kids = map<string, Tree>

  type Path = seq<string>

  function SubKids(kids: Kids, k: string): Kids {
    if k in kids && kids[k].Node? then kids[k].kids else map[]
  }

  // SetChartValue: a missing or scalar step on the way becomes a fresh map.
  function SetPath(kids: Kids, path: Path, value: Tree): Kids
    requires path != []
    decreases |path|, 1
  {
    kids[path[0] := SetChild(SubKids(kids, path[0]), path, value)]
  }

  function SetChild(sub: Kids, path: Path, value: Tree): Tree
    requires path != []
    decreases |path|, 0
  {
    if |path| == 1 then value else Node(SetPath(sub, path[1..], value))
  }

  // mergeMaps: custom wins, and maps on both sides are merged.
  function Merge(base: Kids, custom: Kids): Kids
    decreases Node(custom), 0
  {
    map k | k in base.Keys + custom.Keys :: if k in custom then MergeEntry(base, custom, k) else base[k]
  }

  function MergeEntry(base: Kids, custom: Kids, k: string): Tree
    requires k in custom
    decreases custom[k], 1
  {
    match custom[k]
    case Leaf(_) => custom[k]
    case Node(kids) => Node(Merge(SubKids(base, k), kids))
  }

  function Lookup(t: Tree, path: Path): Option<Tree>
    decreases |path|
  {
    if path == [] then Some(t)
    else if t.Node? && path[0] in t.kids then Lookup(t.kids[path[0]], path[1..])
    else None
  }

  predicate Incomparable(p: Path, q: Path) {
    !(p <= q) && !(q <= p)
  }

  // A scalar or list sits at some non-empty prefix of the path.
  predicate LeafOn(kids: Kids, path: Path)
    decreases |path|
  {
    path != [] && path[0] in kids && (kids[path[0]].Leaf? || LeafOn(kids[path[0]].kids, path[1..]))
  }

  predicate LeafAbove(kids: Kids, path: Path)
    requires path != []
  {
    LeafOn(kids, path[..|path| - 1])
  }

  // ---- What a lookup finds after setting a path ---------------------------------

  // At the path and below, the new value.
  lemma {:induction false} SetThenBelow(kids: Kids, path: Path, value: Tree, rest: Path)
    requires path != []
    ensures Lookup(Node(SetPath(kids, path, value)), path + rest) == Lookup(value, rest)
    decreases |path|
  {
    assert (path + rest)[0] == path[0] && (path + rest)[1..] == path[1..] + rest;
    if |path| == 1 {
      assert path[1..] + rest == rest;
    } else {
      SetThenBelow(SubKids(kids, path[0]), path[1..], value, rest);
    }
  }

  lemma SetThenSame(kids: Kids, path: Path, value: Tree)
    requires path != []
    ensures Lookup(Node(SetPath(kids, path, value)), path) == Some(value)
  {
    SetThenBelow(kids, path, value, []);
    assert path + [] == path;
  }

  // Above the path, a map.
  lemma {:induction false} SetThenAbove(kids: Kids, path: Path, value: Tree, q: Path)
    requires q < path
    ensures Lookup(Node(SetPath(kids, path, value)), q).Some?
    ensures Lookup(Node(SetPath(kids, path, value)), q).value.Node?
    decreases |path|
  {
    if q != [] {
      assert q[0] == path[0] && q[1..] < path[1..];
      SetThenAbove(SubKids(kids, path[0]), path[1..], value, q[1..]);
    }
  }

  // Elsewhere, what was there before.
  lemma {:induction false} SetThenApart(kids: Kids, path: Path, value: Tree, q: Path)
    requires path != [] && Incomparable(path, q)
    ensures Lookup(Node(SetPath(kids, path, value)), q) == Lookup(Node(kids), q)
    decreases |path|
  {
    if q[0] == path[0] {
      assert path == [path[0]] + path[1..] && q == [q[0]] + q[1..];
      assert |path| > 1;
      assert Incomparable(path[1..], q[1..]);
      SetThenApart(SubKids(kids, path[0]), path[1..], value, q[1..]);
      if !(q[0] in kids && kids[q[0]].Node?) {
        assert q[1..] != [];
      }
    }
  }

  // ---- What a lookup finds after a merge ------------------------------------------

  lemma LookupStep(kids: Kids, path: Path)
    requires path != []
    ensures Lookup(Node(kids), path) == if path[0] in kids then Lookup(kids[path[0]], path[1..]) else None
    ensures path[0] in kids && |path| == 1 ==> Lookup(kids[path[0]], path[1..]) == Some(kids[path[0]])
    ensures path[0] in kids && |path| > 1 && kids[path[0]].Leaf? ==> Lookup(kids[path[0]], path[1..]) == None
    ensures LeafOn(kids, path) <==>
            path[0] in kids && (kids[path[0]].Leaf? || (|path| > 1 && LeafOn(kids[path[0]].kids, path[1..])))
  {
  }

  // The three cases: custom has a scalar or list on the path and decides alone; custom
  // has a map at the path and merges into base's; or custom says nothing and base stays.
  lemma {:induction false} MergeThenLookup(base: Kids, custom: Kids, path: Path)
    requires path != []
    ensures var found := Lookup(Node(Merge(base, custom)), path);
            var b, c := Lookup(Node(base), path), Lookup(Node(custom), path);
            if LeafOn(custom, path) then found == c
            else if c.Some? then
              c.value.Node?
              && found == Some(Node(Merge(if b.Some? && b.value.Node? then b.value.kids else map[], c.value.kids)))
            else found == b
    decreases |path|
  {
    var k, rest := path[0], path[1..];
    LookupStep(Merge(base, custom), path);
    LookupStep(base, path);
    LookupStep(custom, path);
    if k in custom {
      assert Merge(base, custom)[k] == MergeEntry(base, custom, k);
      if custom[k].Node? && rest != [] {
        MergeThenLookup(SubKids(base, k), custom[k].kids, rest);
      }
    }
  }

  lemma {:induction false} MergeEmpty(custom: Kids)
    ensures Merge(map[], custom) == custom
    decreases Node(custom)
  {
    forall k | k in custom ensures Merge(map[], custom)[k] == custom[k] {
      if custom[k].Node? { MergeEmpty(custom[k].kids); }
    }
  }

  // ---- Batched equals direct ------------------------------------------------------

  lemma MergeSubKids(base: Kids, batch: Kids, k: string)
    requires k in batch ==> batch[k].Node?
    ensures SubKids(Merge(base, batch), k) == Merge(SubKids(base, k), SubKids(batch, k))
  {
    if k in batch {
      assert Merge(base, batch)[k] == MergeEntry(base, batch, k);
    } else {
      assert Merge(SubKids(base, k), map[]) == SubKids(base, k);
    }
  }

  // What the two orders do at the first step of the path.
  lemma MergeOfSetHead(base: Kids, batch: Kids, path: Path, v: Value)
    requires |path| > 1
    ensures SubKids(Merge(base, SetPath(batch, path, Leaf(v))), path[0]) ==
            Merge(SubKids(base, path[0]), SetPath(SubKids(batch, path[0]), path[1..], Leaf(v)))
    ensures SubKids(SetPath(Merge(base, batch), path, Leaf(v)), path[0]) ==
            SetPath(SubKids(Merge(base, batch), path[0]), path[1..], Leaf(v))
  {
    assert SetPath(batch, path, Leaf(v))[path[0]] == Node(SetPath(SubKids(batch, path[0]), path[1..], Leaf(v)));
    MergeSubKids(base, SetPath(batch, path, Leaf(v)), path[0]);
  }

  lemma AboveTail(path: Path)
    requires |path| > 1
    ensures path[..|path| - 1] != [] && path[..|path| - 1][0] == path[0]
    ensures path[..|path| - 1][1..] == path[1..][..|path| - 2]
  {
  }

  // And at every other key.
  lemma MergeOfSetApart(base: Kids, batch: Kids, path: Path, v: Value, j: string)
    requires path != [] && j != path[0]
    ensures var left, right := Merge(base, SetPath(batch, path, Leaf(v))), SetPath(Merge(base, batch), path, Leaf(v));
            (j in left <==> j in right) && (j in left ==> left[j] == right[j])
  {
    if j in batch {
      assert MergeEntry(base, SetPath(batch, path, Leaf(v)), j) == MergeEntry(base, batch, j);
    }
  }

  lemma MergeOfSetHere(base: Kids, batch: Kids, path: Path, v: Value)
    requires path != [] && !LeafAbove(batch, path)
    requires |path| > 1 ==>
               Merge(SubKids(base, path[0]), SetPath(SubKids(batch, path[0]), path[1..], Leaf(v))) ==
               SetPath(Merge(SubKids(base, path[0]), SubKids(batch, path[0])), path[1..], Leaf(v))
    ensures var left, right := Merge(base, SetPath(batch, path, Leaf(v))), SetPath(Merge(base, batch), path, Leaf(v));
            path[0] in left && path[0] in right && left[path[0]] == right[path[0]]
  {
    var k := path[0];
    var changed := SetPath(batch, path, Leaf(v));
    assert Merge(base, changed)[k] == MergeEntry(base, changed, k);
    if |path| > 1 {
      MergeOfSetHead(base, batch, path, v);
      MergeSubKids(base, batch, k);
      assert changed[k] == Node(SetPath(SubKids(batch, k), path[1..], Leaf(v)));
    } else {
      assert SetChild(SubKids(batch, k), path, Leaf(v)) == Leaf(v);
    }
  }

  // Setting a value in the batch and then merging is merging and then setting it, unless
  // the batch holds a scalar above the path.
  lemma {:induction false} MergeOfSet(base: Kids, batch: Kids, path: Path, v: Value)
    requires path != [] && !LeafAbove(batch, path)
    ensures Merge(base, SetPath(batch, path, Leaf(v))) == SetPath(Merge(base, batch), path, Leaf(v))
    decreases |path|
  {
    var k := path[0];
    if |path| > 1 {
      AboveTail(path);
      MergeOfSet(SubKids(base, k), SubKids(batch, k), path[1..], v);
    }
    MergeOfSetHere(base, batch, path, v);
    var left, right := Merge(base, SetPath(batch, path, Leaf(v))), SetPath(Merge(base, batch), path, Leaf(v));
    hide Merge, SetPath, LeafAbove;
    forall j | j != k ensures (j in left <==> j in right) && (j in left ==> left[j] == right[j]) {
      MergeOfSetApart(base, batch, path, v, j);
    }
    assert left.Keys == right.Keys;
  }

  datatype Setting = Setting(path: Path, value: Tree)

  predicate Settable(settings: seq<Setting>) {
    forall i | 0 <= i < |settings| :: settings[i].path != []
  }

  function SetAll(kids: Kids, settings: seq<Setting>): Kids
    requires Settable(settings)
  {
    if settings == [] then kids
    else
      var n := |settings| - 1;
      SetPath(SetAll(kids, settings[..n]), settings[n].path, settings[n].value)
  }

  predicate AllLeaves(settings: seq<Setting>) {
    forall i | 0 <= i < |settings| :: settings[i].value.Leaf?
  }

  // No setting goes below an earlier one.
  predicate NoneBelowEarlier(settings: seq<Setting>) {
    forall i, j | 0 <= i < j < |settings| :: !(settings[i].path < settings[j].path)
  }

  predicate PairwiseIncomparable(settings: seq<Setting>) {
    forall i, j | 0 <= i < j < |settings| :: Incomparable(settings[i].path, settings[j].path)
  }

  lemma LeafOnPrefix(kids: Kids, path: Path) returns (n: nat)
    requires LeafOn(kids, path)
    ensures 0 < n <= |path|
    ensures Lookup(Node(kids), path[..n]).Some? && Lookup(Node(kids), path[..n]).value.Leaf?
    decreases |path|
  {
    if kids[path[0]].Leaf? {
      n := 1;
      assert path[..1][1..] == [];
    } else {
      n := LeafOnPrefix(kids[path[0]].kids, path[1..]);
      n := n + 1;
      assert path[..n][1..] == path[1..][..n - 1];
    }
  }

  // Every scalar in a batch stands where some setting put it.
  lemma {:induction false} BatchLeaves(settings: seq<Setting>, q: Path)
    requires Settable(settings) && AllLeaves(settings) && q != []
    requires var found := Lookup(Node(SetAll(map[], settings)), q); found.Some? && found.value.Leaf?
    ensures exists i :: 0 <= i < |settings| && settings[i].path == q
    decreases |settings|
  {
    if settings == [] {
      assert false;
    } else {
      var n := |settings| - 1;
      var p, v := settings[n].path, settings[n].value;
      var before := SetAll(map[], settings[..n]);
      if q == p {
      } else if q < p {
        SetThenAbove(before, p, v, q);
      } else if p < q {
        assert q == p + q[|p|..];
        SetThenBelow(before, p, v, q[|p|..]);
      } else {
        SetThenApart(before, p, v, q);
        BatchLeaves(settings[..n], q);
      }
    }
  }

  // A batch of scalars, none set below an earlier one, gives the same tree whether it is
  // built on its own and merged, or set straight onto the base.
  lemma {:induction false} BatchedEqualsDirect(base: Kids, settings: seq<Setting>)
    requires Settable(settings) && AllLeaves(settings) && NoneBelowEarlier(settings)
    ensures Merge(base, SetAll(map[], settings)) == SetAll(base, settings)
    decreases |settings|
  {
    if settings == [] {
      assert Merge(base, map[]) == base;
    } else {
      var n := |settings| - 1;
      var p := settings[n].path;
      var batch := SetAll(map[], settings[..n]);
      BatchedEqualsDirect(base, settings[..n]);
      if LeafAbove(batch, p) {
        var above := p[..|p| - 1];
        var m := LeafOnPrefix(batch, above);
        assert above[..m] < p;
        BatchLeaves(settings[..n], above[..m]);
      }
      MergeOfSet(base, batch, p, settings[n].value.v);
    }
  }

  // ---- Order of settings -------------------------------------------------------------

  lemma {:induction false} SetsCommute(kids: Kids, p: Path, v: Tree, q: Path, w: Tree)
    requires p != [] && q != [] && Incomparable(p, q)
    ensures SetPath(SetPath(kids, p, v), q, w) == SetPath(SetPath(kids, q, w), p, v)
    decreases |p|
  {
    if p[0] == q[0] {
      assert p == [p[0]] + p[1..] && q == [q[0]] + q[1..];
      assert |p| > 1 && |q| > 1;
      assert Incomparable(p[1..], q[1..]);
      SetsCommute(SubKids(kids, p[0]), p[1..], v, q[1..], w);
      SetTwice(kids, p, v, q, w);
      SetTwice(kids, q, w, p, v);
    } else {
      var x, y := SetChild(SubKids(kids, p[0]), p, v), SetChild(SubKids(kids, q[0]), q, w);
      SetElsewhere(kids, p, v, q, w);
      SetElsewhere(kids, q, w, p, v);
      UpdatesCommute(kids, p[0], x, q[0], y);
    }
  }

  lemma SetTwice(kids: Kids, p: Path, v: Tree, q: Path, w: Tree)
    requires |p| > 1 && |q| > 1 && p[0] == q[0]
    ensures SetPath(SetPath(kids, p, v), q, w) ==
            kids[p[0] := Node(SetPath(SetPath(SubKids(kids, p[0]), p[1..], v), q[1..], w))]
  {
    var inner := SetPath(SubKids(kids, p[0]), p[1..], v);
    assert SetPath(kids, p, v) == kids[p[0] := Node(inner)];
    assert SubKids(kids[p[0] := Node(inner)], q[0]) == inner;
  }

  lemma SetElsewhere(kids: Kids, p: Path, v: Tree, q: Path, w: Tree)
    requires p != [] && q != [] && p[0] != q[0]
    ensures SetPath(SetPath(kids, p, v), q, w) ==
            kids[p[0] := SetChild(SubKids(kids, p[0]), p, v)][q[0] := SetChild(SubKids(kids, q[0]), q, w)]
  {
    assert SubKids(SetPath(kids, p, v), q[0]) == SubKids(kids, q[0]);
  }

  lemma UpdatesCommute(kids: Kids, j: string, x: Tree, k: string, y: Tree)
    requires j != k
    ensures kids[j := x][k := y] == kids[k := y][j := x]
  {
  }

  function Without(settings: seq<Setting>, j: nat): (r: seq<Setting>)
    requires j < |settings|
    ensures |r| == |settings| - 1
  {
    settings[..j] + settings[j + 1..]
  }

  lemma PairwiseInit(settings: seq<Setting>, n: nat)
    requires n <= |settings| && Settable(settings) && PairwiseIncomparable(settings)
    ensures Settable(settings[..n]) && PairwiseIncomparable(settings[..n])
  {
  }

  lemma SetAllLast(kids: Kids, settings: seq<Setting>)
    requires settings != [] && Settable(settings)
    ensures var n := |settings| - 1;
            SetAll(kids, settings) == SetPath(SetAll(kids, settings[..n]), settings[n].path, settings[n].value)
  {
  }

  // A setting that no other touches may as well be made last.
  lemma {:induction false} MoveLast(kids: Kids, settings: seq<Setting>, j: nat)
    requires j < |settings| && Settable(settings) && PairwiseIncomparable(settings)
    ensures Settable(Without(settings, j))
    ensures SetAll(kids, settings) == SetPath(SetAll(kids, Without(settings, j)), settings[j].path, settings[j].value)
    decreases |settings|
  {
    hide SetPath, SetAll;
    var n := |settings| - 1;
    var rest := Without(settings, j);
    SetAllLast(kids, settings);
    if j == n {
      assert rest == settings[..n];
    } else {
      PairwiseInit(settings, n);
      assert Incomparable(settings[j].path, settings[n].path);
      hide PairwiseIncomparable, Incomparable;
      MoveLast(kids, settings[..n], j);
      assert rest[..n - 1] == Without(settings[..n], j);
      assert rest[n - 1] == settings[n];
      SetAllLast(kids, rest);
      SetsCommute(SetAll(kids, rest[..n - 1]), settings[j].path, settings[j].value,
                  settings[n].path, settings[n].value);
    }
  }

  lemma WithoutStays(settings: seq<Setting>, j: nat)
    requires j < |settings| && PairwiseIncomparable(settings)
    ensures PairwiseIncomparable(Without(settings, j))
    ensures multiset(Without(settings, j)) == multiset(settings) - multiset{settings[j]}
  {
    assert settings == settings[..j] + [settings[j]] + settings[j + 1..];
  }

  // Any order of settings at pairwise incomparable paths gives the same tree.
  lemma {:induction false} OrderOfSettings(kids: Kids, a: seq<Setting>, b: seq<Setting>)
    requires Settable(a) && Settable(b) && PairwiseIncomparable(a) && PairwiseIncomparable(b)
    requires multiset(a) == multiset(b)
    ensures SetAll(kids, a) == SetAll(kids, b)
    decreases |a|
  {
    hide SetPath, Incomparable;
    assert |a| == |multiset(a)| == |multiset(b)| == |b|;
    if a != [] {
      var n := |a| - 1;
      assert a[n] in multiset(b);
      var j :| 0 <= j < |b| && b[j] == a[n];
      MoveLast(kids, b, j);
      WithoutStays(b, j);
      WithoutStays(a, n);
      assert Without(a, n) == a[..n];
      PairwiseInit(a, n);
      hide PairwiseIncomparable, Without;
      OrderOfSettings(kids, a[..n], Without(b, j));
    }
  }

  // A setting keeps its value through later ones that do not touch its path, and a path
  // that no setting touches keeps what it had.
  lemma {:induction false} SetAllApart(kids: Kids, settings: seq<Setting>, q: Path)
    requires Settable(settings)
    requires forall i | 0 <= i < |settings| :: Incomparable(settings[i].path, q)
    ensures Lookup(Node(SetAll(kids, settings)), q) == Lookup(Node(kids), q)
    decreases |settings|
  {
    if settings != [] {
      var n := |settings| - 1;
      SetAllApart(kids, settings[..n], q);
      SetThenApart(SetAll(kids, settings[..n]), settings[n].path, settings[n].value, q);
    }
  }

  // A setting that no later one touches is read back at its path.
  lemma {:induction false} SetAllReads(kids: Kids, settings: seq<Setting>, j: nat)
    requires Settable(settings) && j < |settings|
    requires forall k | j < k < |settings| :: Incomparable(settings[k].path, settings[j].path)
    ensures Lookup(Node(SetAll(kids, settings)), settings[j].path) == Some(settings[j].value)
    decreases |settings|
  {
    var n := |settings| - 1;
    var before := SetAll(kids, settings[..n]);
    if j == n {
      SetThenSame(before, settings[n].path, settings[n].value);
    } else {
      SetAllReads(kids, settings[..n], j);
      SetThenApart(before, settings[n].path, settings[n].value, settings[j].path);
    }
  }

  // ---- Merging a batch ---------------------------------------------------------------

  lemma {:induction false} LeafIsOn(kids: Kids, path: Path)
    requires path != []
    requires Lookup(Node(kids), path).Some? && Lookup(Node(kids), path).value.Leaf?
    ensures LeafOn(kids, path)
    decreases |path|
  {
    LookupStep(kids, path);
    if |path| > 1 && kids[path[0]].Node? { LeafIsOn(kids[path[0]].kids, path[1..]); }
  }

  lemma {:induction false} SetKeepsClear(kids: Kids, path: Path, value: Tree, q: Path)
    requires path != [] && Incomparable(path, q) && !LeafOn(kids, q)
    ensures !LeafOn(SetPath(kids, path, value), q)
    decreases |path|
  {
    if q[0] == path[0] {
      assert path == [path[0]] + path[1..] && q == [q[0]] + q[1..];
      assert |path| > 1;
      assert Incomparable(path[1..], q[1..]);
      SetKeepsClear(SubKids(kids, path[0]), path[1..], value, q[1..]);
    }
  }

  lemma {:induction false} BatchClear(settings: seq<Setting>, q: Path)
    requires Settable(settings)
    requires forall i | 0 <= i < |settings| :: Incomparable(settings[i].path, q)
    ensures !LeafOn(SetAll(map[], settings), q)
    decreases |settings|
  {
    if settings != [] {
      var n := |settings| - 1;
      BatchClear(settings[..n], q);
      SetKeepsClear(SetAll(map[], settings[..n]), settings[n].path, settings[n].value, q);
    }
  }

  // A path that no setting of the batch touches keeps what the base had.
  lemma MergeApart(base: Kids, settings: seq<Setting>, q: Path)
    requires Settable(settings) && q != []
    requires forall i | 0 <= i < |settings| :: Incomparable(settings[i].path, q)
    ensures Lookup(Node(Merge(base, SetAll(map[], settings))), q) == Lookup(Node(base), q)
  {
    var batch := SetAll(map[], settings);
    SetAllApart(map[], settings, q);
    BatchClear(settings, q);
    MergeThenLookup(base, batch, q);
  }

  // A scalar of the batch is read where the batch has it, whatever the base had there or
  // above it.
  lemma MergeReads(base: Kids, settings: seq<Setting>, q: Path)
    requires Settable(settings)
    requires var found := Lookup(Node(SetAll(map[], settings)), q); found.Some? && found.value.Leaf?
    ensures Lookup(Node(Merge(base, SetAll(map[], settings))), q) == Lookup(Node(SetAll(map[], settings)), q)
  {
    var batch := SetAll(map[], settings);
    LeafIsOn(batch, q);
    MergeThenLookup(base, batch, q);
  }
}
