// Exactly when a batch of settings, built on its own and merged, does what setting them
// straight onto the base does.
module Batches {
  import opened Wrappers
  import opened Trees

  // Whatever is at the path, taken out.
  function Remove(kids: Kids, path: Path): Kids
    requires path != []
    decreases |path|
  {
    if path[0] !in kids then kids
    else if |path| == 1 then kids - {path[0]}
    else if kids[path[0]].Leaf? then kids
    else kids[path[0] := Node(Remove(kids[path[0]].kids, path[1..]))]
  }

  function RemoveAll(kids: Kids, settings: seq<Setting>): Kids
    requires Settable(settings)
  {
    if settings == [] then kids
    else
      var n := |settings| - 1;
      Remove(RemoveAll(kids, settings[..n]), settings[n].path)
  }

  // Where the batch has a scalar, the base has nothing.
  predicate Fits(base: Kids, batch: Kids)
    decreases Node(batch)
  {
    forall k | k in batch ::
      match batch[k]
      case Leaf(_) => k !in base
      case Node(kids) => Fits(SubKids(base, k), kids)
  }

  lemma RemoveSub(kids: Kids, path: Path)
    requires |path| > 1
    ensures SubKids(Remove(kids, path), path[0]) == Remove(SubKids(kids, path[0]), path[1..])
  {
  }

  lemma {:induction false} FitsSub(base: Kids, batch: Kids, k: string)
    requires Fits(base, batch)
    ensures Fits(SubKids(base, k), SubKids(batch, k))
    ensures k in batch && batch[k].Leaf? ==> SubKids(base, k) == map[]
  {
  }

  lemma {:induction false} FitsStep(base: Kids, batch: Kids, path: Path, v: Value)
    requires path != [] && Fits(base, batch)
    ensures Fits(Remove(base, path), SetPath(batch, path, Leaf(v)))
    decreases |path|
  {
    var k := path[0];
    var base', batch' := Remove(base, path), SetPath(batch, path, Leaf(v));
    FitsSub(base, batch, k);
    if |path| > 1 {
      RemoveSub(base, path);
      FitsStep(SubKids(base, k), SubKids(batch, k), path[1..], v);
    }
    forall j | j in batch' && j != k
      ensures match batch'[j] case Leaf(_) => j !in base' case Node(kids) => Fits(SubKids(base', j), kids)
    {
      assert batch'[j] == batch[j] && SubKids(base', j) == SubKids(base, j);
    }
  }

  lemma SetHead(kids: Kids, path: Path, value: Tree)
    requires |path| > 1
    ensures SetPath(kids, path, value)[path[0]] == Node(SetPath(SubKids(kids, path[0]), path[1..], value))
  {
  }

  // Setting onto the merge is setting in the batch, once the base has let go of what was
  // there.
  lemma {:induction false} SetOnMerge(base: Kids, batch: Kids, path: Path, v: Value)
    requires path != [] && Fits(base, batch)
    ensures SetPath(Merge(base, batch), path, Leaf(v)) == Merge(Remove(base, path), SetPath(batch, path, Leaf(v)))
    decreases |path|, 1
  {
    var base', batch' := Remove(base, path), SetPath(batch, path, Leaf(v));
    var left, right := SetPath(Merge(base, batch), path, Leaf(v)), Merge(base', batch');
    SetOnMergeHead(base, batch, path, v);
    forall j | j != path[0] && (j in left || j in right) ensures j in left && j in right && left[j] == right[j] {
      assert j in batch' <==> j in batch;
      if j in batch { assert MergeEntry(base', batch', j) == MergeEntry(base, batch, j); }
    }
    assert left.Keys == right.Keys;
  }

  lemma {:induction false} SetOnMergeHead(base: Kids, batch: Kids, path: Path, v: Value)
    requires path != [] && Fits(base, batch)
    ensures var base', batch' := Remove(base, path), SetPath(batch, path, Leaf(v));
            path[0] in batch'
            && SetPath(Merge(base, batch), path, Leaf(v))[path[0]] == MergeEntry(base', batch', path[0])
    decreases |path|, 0
  {
    if |path| > 1 {
      var k := path[0];
      FitsSub(base, batch, k);
      RemoveSub(base, path);
      SetOnMerge(SubKids(base, k), SubKids(batch, k), path[1..], v);
      MergedSub(base, batch, k);
      SetHead(Merge(base, batch), path, Leaf(v));
      SetHead(batch, path, Leaf(v));
      hide Remove, Merge, SetPath, Fits;
    }
  }

  lemma MergedSub(base: Kids, batch: Kids, k: string)
    requires Fits(base, batch)
    ensures SubKids(Merge(base, batch), k) == Merge(SubKids(base, k), SubKids(batch, k))
  {
    FitsSub(base, batch, k);
    if k in batch && batch[k].Leaf? {
      assert Merge(base, batch)[k] == MergeEntry(base, batch, k);
    } else {
      MergeSubKids(base, batch, k);
    }
  }

  // Setting straight onto the base is merging the batch into what is left of the base.
  lemma {:induction false} DirectIsMerge(base: Kids, settings: seq<Setting>)
    requires Settable(settings) && AllLeaves(settings)
    ensures var batch := SetAll(map[], settings);
            Fits(RemoveAll(base, settings), batch) && SetAll(base, settings) == Merge(RemoveAll(base, settings), batch)
    decreases |settings|
  {
    if settings == [] {
      assert Merge(base, map[]) == base;
    } else {
      var n := |settings| - 1;
      DirectIsMerge(base, settings[..n]);
      var base', batch := RemoveAll(base, settings[..n]), SetAll(map[], settings[..n]);
      FitsStep(base', batch, settings[n].path, settings[n].value.v);
      SetOnMerge(base', batch, settings[n].path, settings[n].value.v);
    }
  }

  // ---- When what is taken out of the base does not show ---------------------------------

  lemma {:induction false} HiddenRemoval(base: Kids, batch: Kids, path: Path)
    requires LeafOn(batch, path)
    ensures Merge(Remove(base, path), batch) == Merge(base, batch)
    decreases |path|
  {
    var k := path[0];
    var base' := Remove(base, path);
    if batch[k].Node? {
      RemoveSub(base, path);
      HiddenRemoval(SubKids(base, k), batch[k].kids, path[1..]);
    }
    assert MergeEntry(base', batch, k) == MergeEntry(base, batch, k);
    var left, right := Merge(base', batch), Merge(base, batch);
    forall j | j != k && (j in left || j in right) ensures j in left && j in right && left[j] == right[j] {
      if j in batch { assert MergeEntry(base', batch, j) == MergeEntry(base, batch, j); }
    }
    assert left.Keys == right.Keys;
  }

  lemma {:induction false} HiddenRemovals(base: Kids, batch: Kids, settings: seq<Setting>)
    requires Settable(settings)
    requires forall i | 0 <= i < |settings| :: LeafOn(batch, settings[i].path)
    ensures Merge(RemoveAll(base, settings), batch) == Merge(base, batch)
    decreases |settings|
  {
    if settings != [] {
      var n := |settings| - 1;
      HiddenRemovals(base, batch, settings[..n]);
      HiddenRemoval(RemoveAll(base, settings[..n]), batch, settings[n].path);
    }
  }

  lemma {:induction false} RemovedStays(kids: Kids, path: Path, q: Path)
    requires path != [] && q != []
    ensures path <= q || Lookup(Node(kids), q) == None ==> Lookup(Node(Remove(kids, path)), q) == None
    decreases |path|
  {
    LookupStep(kids, q);
    LookupStep(Remove(kids, path), q);
    if path[0] == q[0] && |path| > 1 && path[0] in kids && kids[path[0]].Node? {
      if |q| > 1 {
        assert path == [path[0]] + path[1..] && q == [q[0]] + q[1..];
        assert path <= q ==> path[1..] <= q[1..];
        RemovedStays(kids[path[0]].kids, path[1..], q[1..]);
      }
    }
  }

  lemma {:induction false} AllRemoved(kids: Kids, settings: seq<Setting>, i: nat, q: Path)
    requires Settable(settings) && i < |settings| && settings[i].path <= q && q != []
    ensures Lookup(Node(RemoveAll(kids, settings)), q) == None
    decreases |settings|
  {
    var n := |settings| - 1;
    if i < n { AllRemoved(kids, settings[..n], i, q); }
    RemovedStays(RemoveAll(kids, settings[..n]), settings[n].path, q);
  }

  lemma {:induction false} NewKey(keys: set<string>) returns (newKey: string)
    ensures newKey !in keys && forall k | k in keys :: |k| < |newKey|
    decreases |keys|
  {
    if keys == {} {
      newKey := "";
    } else {
      var k :| k in keys;
      var f := NewKey(keys - {k});
      newKey := f + k + "'";
      assert forall j | j in keys :: j == k || j in keys - {k};
    }
  }

  // A path of the batch with no scalar on it lets some of the base through.
  lemma ShownRemoval(settings: seq<Setting>, i: nat) returns (base: Kids)
    requires Settable(settings) && AllLeaves(settings) && i < |settings|
    requires !LeafOn(SetAll(map[], settings), settings[i].path)
    ensures Merge(base, SetAll(map[], settings)) != SetAll(base, settings)
  {
    var batch, path := SetAll(map[], settings), settings[i].path;
    var at := Lookup(Node(batch), path);
    var key := NewKey(if at.Some? && at.value.Node? then at.value.kids.Keys else {});
    var q := path + [key];
    base := SetPath(map[], q, Leaf(Null));
    SetThenSame(map[], q, Leaf(Null));
    NothingBelow(batch, path, key);
    MergeThenLookup(base, batch, q);
    DirectIsMerge(base, settings);
    AllRemoved(base, settings, i, q);
    MergeThenLookup(RemoveAll(base, settings), batch, q);
  }

  lemma {:induction false} NothingBelow(kids: Kids, path: Path, key: string)
    requires path != [] && !LeafOn(kids, path)
    requires var at := Lookup(Node(kids), path); at.Some? && at.value.Node? ==> key !in at.value.kids
    ensures !LeafOn(kids, path + [key]) && Lookup(Node(kids), path + [key]) == None
    decreases |path|
  {
    assert (path + [key])[1..] == path[1..] + [key];
    if path[0] in kids {
      if |path| > 1 {
        NothingBelow(kids[path[0]].kids, path[1..], key);
      } else {
        assert path[1..] == [] && [] + [key] == [key];
        LookupStep(kids, path);
        LookupStep(kids[path[0]].kids, [key]);
      }
    }
  }

  // Batched is direct, on every base, exactly when the path of every setting still has a
  // scalar of the batch on it.
  lemma BatchedByLeaves(settings: seq<Setting>)
    requires Settable(settings) && AllLeaves(settings)
    ensures (forall base: Kids :: Merge(base, SetAll(map[], settings)) == SetAll(base, settings))
            <==> AllOnLeaves(settings)
  {
    var batch := SetAll(map[], settings);
    if AllOnLeaves(settings) {
      forall base: Kids ensures Merge(base, batch) == SetAll(base, settings) {
        DirectIsMerge(base, settings);
        HiddenRemovals(base, batch, settings);
      }
    } else {
      var i :| 0 <= i < |settings| && !LeafOn(batch, settings[i].path);
      var base := ShownRemoval(settings, i);
    }
  }

  // ---- The condition on the paths alone -------------------------------------------------

  // The setting i is at p, and none later is above or below p.
  predicate Stands(settings: seq<Setting>, i: nat, p: Path) {
    i < |settings| && settings[i].path == p
    && forall j | i < j < |settings| :: !(settings[j].path < p) && !(p < settings[j].path)
  }

  predicate IsScalar(kids: Kids, p: Path) {
    Lookup(Node(kids), p).Some? && Lookup(Node(kids), p).value.Leaf?
  }

  // The batch has a scalar at p exactly when some setting stands there.
  lemma {:induction false} ScalarStands(settings: seq<Setting>, p: Path)
    requires Settable(settings) && AllLeaves(settings) && p != []
    ensures IsScalar(SetAll(map[], settings), p) <==> exists i: nat :: Stands(settings, i, p)
    decreases |settings|
  {
    if settings != [] {
      var n := |settings| - 1;
      var q, v := settings[n].path, settings[n].value;
      var before := SetAll(map[], settings[..n]);
      ScalarStands(settings[..n], p);
      if q == p {
        SetThenSame(before, q, v);
        assert Stands(settings, n, p);
      } else if q < p {
        assert p == q + p[|q|..];
        SetThenBelow(before, q, v, p[|q|..]);
      } else if p < q {
        SetThenAbove(before, q, v, p);
      } else {
        SetThenApart(before, q, v, p);
        assert forall i: nat | i < n :: Stands(settings[..n], i, p) <==> Stands(settings, i, p);
      }
    }
  }

  lemma {:induction false} LeafOnBelow(kids: Kids, p: Path, q: Path)
    requires LeafOn(kids, p) && p <= q
    ensures LeafOn(kids, q)
    decreases |p|
  {
    if kids[p[0]].Node? { LeafOnBelow(kids[p[0]].kids, p[1..], q[1..]); }
  }

  // Some setting at or above q stands.
  ghost predicate HasCover(settings: seq<Setting>, q: Path) {
    exists i: nat :: i < |settings| && settings[i].path <= q && Stands(settings, i, settings[i].path)
  }

  lemma LeafOnStands(settings: seq<Setting>, q: Path)
    requires Settable(settings) && AllLeaves(settings)
    ensures LeafOn(SetAll(map[], settings), q) <==> HasCover(settings, q)
  {
    var batch := SetAll(map[], settings);
    if LeafOn(batch, q) {
      var n := LeafOnPrefix(batch, q);
      ScalarStands(settings, q[..n]);
      var i: nat :| Stands(settings, i, q[..n]);
      assert settings[i].path <= q;
    } else if i: nat :| i < |settings| && settings[i].path <= q && Stands(settings, i, settings[i].path) {
      ScalarStands(settings, settings[i].path);
      LeafIsOn(batch, settings[i].path);
      LeafOnBelow(batch, settings[i].path, q);
    }
  }

  // Whenever a setting goes below an earlier one, a later one is at or above that earlier
  // one again.
  predicate CoveredAgain(settings: seq<Setting>) {
    forall i, j | 0 <= i < j < |settings| && settings[i].path < settings[j].path ::
      exists k :: j < k < |settings| && settings[k].path <= settings[i].path
  }

  lemma {:induction false} LastAbove(settings: seq<Setting>, n: nat, q: Path) returns (i: nat)
    requires n <= |settings| && exists j :: 0 <= j < n && settings[j].path <= q
    ensures i < n && settings[i].path <= q && forall j | i < j < n :: !(settings[j].path <= q)
  {
    i := n - 1;
    if !(settings[i].path <= q) { i := LastAbove(settings, n - 1, q); }
  }

  lemma CoverOf(settings: seq<Setting>, i: nat)
    requires CoveredAgain(settings) && i < |settings|
    ensures HasCover(settings, settings[i].path)
  {
    assert settings[i].path <= settings[i].path;
    var q := settings[i].path;
    var m := LastAbove(settings, |settings|, q);
    forall j | m < j < |settings|
      ensures !(settings[j].path < settings[m].path) && !(settings[m].path < settings[j].path)
    {
      assert !(settings[j].path <= q);
    }
    assert Stands(settings, m, settings[m].path);
  }

  lemma CoverLater(settings: seq<Setting>, i: nat, j: nat) returns (k: nat)
    requires i < j < |settings| && settings[i].path < settings[j].path && HasCover(settings, settings[i].path)
    ensures j < k < |settings| && settings[k].path <= settings[i].path
  {
    k :| k < |settings| && settings[k].path <= settings[i].path && Stands(settings, k, settings[k].path);
    assert settings[k].path < settings[j].path;
  }

  ghost predicate AllCovered(settings: seq<Setting>) {
    forall i | 0 <= i < |settings| :: HasCover(settings, settings[i].path)
  }

  predicate AllOnLeaves(settings: seq<Setting>)
    requires Settable(settings)
  {
    forall i | 0 <= i < |settings| :: LeafOn(SetAll(map[], settings), settings[i].path)
  }

  lemma CoveredEverywhere(settings: seq<Setting>)
    ensures CoveredAgain(settings) <==> AllCovered(settings)
  {
    hide HasCover;
    if CoveredAgain(settings) {
      forall i | 0 <= i < |settings| ensures HasCover(settings, settings[i].path) {
        CoverOf(settings, i);
      }
    }
    if AllCovered(settings) {
      forall i, j | 0 <= i < j < |settings| && settings[i].path < settings[j].path
        ensures exists k :: j < k < |settings| && settings[k].path <= settings[i].path
      {
        var k := CoverLater(settings, i, j);
      }
    }
  }

  lemma LeavesAreCovers(settings: seq<Setting>)
    requires Settable(settings) && AllLeaves(settings)
    ensures AllOnLeaves(settings) <==> AllCovered(settings)
  {
    forall i | 0 <= i < |settings|
      ensures LeafOn(SetAll(map[], settings), settings[i].path) <==> HasCover(settings, settings[i].path)
    {
      LeafOnStands(settings, settings[i].path);
    }
    hide LeafOn, SetAll, HasCover;
  }

  // Batched is direct, on every base, if and only if whenever a setting goes below an
  // earlier one, a later one covers that earlier one again.
  lemma BatchedExactly(settings: seq<Setting>)
    requires Settable(settings) && AllLeaves(settings)
    ensures (forall base: Kids :: Merge(base, SetAll(map[], settings)) == SetAll(base, settings))
            <==> CoveredAgain(settings)
  {
    BatchedByLeaves(settings);
    LeavesAreCovers(settings);
    CoveredEverywhere(settings);
    hide CoveredAgain, AllCovered, AllOnLeaves, LeafOn, SetAll, Merge;
  }
}
