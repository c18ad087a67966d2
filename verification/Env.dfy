// Helm reads the process environment, so every call to it swaps the environment for one of
// its own and puts the old one back.
module Env {
  import opened Wrappers

  type Vars = map<string, string>

  // What the operating system takes as a variable.
  predicate ValidVar(k: string, v: string) {
    k != "" && '=' !in k && '\0' !in k && '\0' !in v
  }

  predicate ValidVars(vars: Vars) {
    forall k | k in vars :: ValidVar(k, vars[k])
  }

  function Line(k: string, v: string): string {
    k + "=" + v
  }

  ghost predicate IsLineOf(line: string, vars: Vars) {
    exists k :: k in vars && line == Line(k, vars[k])
  }

  // The variables one a line, in some order.
  ghost predicate IsEnviron(lines: seq<string>, vars: Vars) {
    && (forall i | 0 <= i < |lines| :: IsLineOf(lines[i], vars))
    && (forall k | k in vars :: Line(k, vars[k]) in lines)
  }

  // ---- SplitEnv -------------------------------------------------------------------------

  // Where the first '=' is.
  function FirstEquals(s: string): (n: nat)
    ensures n <= |s|
    ensures '=' !in s[..n]
    ensures n < |s| ==> s[n] == '='
  {
    if s == "" || s[0] == '=' then 0
    else
      var n := 1 + FirstEquals(s[1..]);
      assert s[..n] == [s[0]] + s[1..][..n - 1];
      n
  }

  // A line without '=' is a variable with an empty value.
  function SplitLine(s: string): (string, string) {
    var n := FirstEquals(s);
    if n == |s| then (s, "") else (s[..n], s[n + 1..])
  }

  function SplitLines(lines: seq<string>): Vars {
    if lines == [] then map[]
    else
      var n := |lines| - 1;
      SplitLines(lines[..n])[SplitLine(lines[n]).0 := SplitLine(lines[n]).1]
  }

  lemma {:induction false} FirstEqualsOfLine(k: string, v: string)
    requires '=' !in k
    ensures FirstEquals(Line(k, v)) == |k|
  {
    if k != "" {
      assert Line(k, v)[1..] == Line(k[1..], v);
      FirstEqualsOfLine(k[1..], v);
    }
  }

  lemma SplitOfLine(k: string, v: string)
    requires '=' !in k
    ensures SplitLine(k + "=" + v) == (k, v) && Line(k, v) == k + "=" + v
  {
    FirstEqualsOfLine(k, v);
    assert Line(k, v)[..|k|] == k && Line(k, v)[|k| + 1..] == v;
  }

  // A line without an equals sign is a variable with an empty value.
  lemma SplitOfName(s: string)
    requires '=' !in s
    ensures SplitLine(s) == (s, "")
  {
    assert forall i | 0 <= i < |s| :: s[i] != '=';
  }

  lemma {:induction false} SplitLinesIn(lines: seq<string>, vars: Vars)
    requires ValidVars(vars)
    requires forall i | 0 <= i < |lines| :: IsLineOf(lines[i], vars)
    ensures forall k | k in SplitLines(lines) :: k in vars && SplitLines(lines)[k] == vars[k]
    ensures forall k | k in vars && Line(k, vars[k]) in lines :: k in SplitLines(lines)
  {
    if lines != [] {
      var n := |lines| - 1;
      SplitLinesIn(lines[..n], vars);
      assert IsLineOf(lines[n], vars);
      var k0 :| k0 in vars && lines[n] == Line(k0, vars[k0]);
      SplitOfLine(k0, vars[k0]);
      forall k | k in vars && Line(k, vars[k]) in lines ensures k in SplitLines(lines) {
        if Line(k, vars[k]) !in lines[..n] {
          assert Line(k, vars[k]) == lines[n];
          SplitOfLine(k, vars[k]);
        }
      }
    }
  }

  // The variables survive being listed and split, whatever the order, '=' in values
  // included.
  lemma EnvironRoundTrip(lines: seq<string>, vars: Vars)
    requires ValidVars(vars) && IsEnviron(lines, vars)
    ensures SplitLines(lines) == vars
  {
    SplitLinesIn(lines, vars);
  }

  method SplitEnv(envs: seq<string>) returns (out: Vars)
    ensures out == SplitLines(envs)
  {
    out := map[];
    var i := 0;
    while i < |envs|
      invariant 0 <= i <= |envs| && out == SplitLines(envs[..i])
    {
      assert envs[..i + 1][..i] == envs[..i];
      var e := SplitLine(envs[i]);
      out := out[e.0 := e.1];
      i := i + 1;
    }
    assert envs[..i] == envs;
  }

  // ---- The process ------------------------------------------------------------------------

  function Only(vars: Vars, keys: set<string>): Vars {
    map k | k in vars && k in keys :: vars[k]
  }

  class Process {
    var vars: Vars

    method Setenv(k: string, v: string) returns (ok: bool)
      modifies this
      ensures ok == ValidVar(k, v)
      ensures vars == if ok then old(vars)[k := v] else old(vars)
    {
      ok := ValidVar(k, v);
      if ok { vars := vars[k := v]; }
    }

    method Environ() returns (lines: seq<string>)
      ensures IsEnviron(lines, vars)
    {
      lines := [];
      var todo := vars.Keys;
      while todo != {}
        invariant todo <= vars.Keys
        invariant forall i | 0 <= i < |lines| :: IsLineOf(lines[i], vars)
        invariant forall k | k in vars && k !in todo :: Line(k, vars[k]) in lines
        decreases todo
      {
        var k :| k in todo;
        lines := lines + [Line(k, vars[k])];
        todo := todo - {k};
      }
    }

    // Sets the variables one by one, in some order, up to one that is not valid.
    method SetAll(all: Vars) returns (ok: bool)
      modifies this
      ensures ok == ValidVars(all)
      ensures ok ==> vars == old(vars) + all
      ensures !ok ==> exists done: set<string> :: done < all.Keys && vars == old(vars) + Only(all, done)
    {
      var todo := all.Keys;
      while todo != {}
        invariant todo <= all.Keys
        invariant vars == old(vars) + Only(all, all.Keys - todo)
        invariant forall k | k in all && k !in todo :: ValidVar(k, all[k])
        decreases todo
      {
        var k :| k in todo;
        ghost var done := all.Keys - todo;
        ok := Setenv(k, all[k]);
        if !ok {
          assert done < all.Keys by { assert k in all.Keys && k !in done; }
          return;
        }
        todo := todo - {k};
        assert all.Keys - todo == done + {k};
        assert Only(all, done + {k}) == Only(all, done)[k := all[k]];
      }
      assert Only(all, all.Keys) == all;
      ok := true;
    }
  }

  // ---- The bracket ----------------------------------------------------------------------------

  // The variables that a call asks for.
  class EnvMap {
    var vars: Vars

    constructor (vars: Vars)
      ensures this.vars == vars
    {
      this.vars := vars;
    }
  }

  // The variables to keep, where the process has them and the call does not say otherwise.
  function WithKept(envs: Vars, keep: seq<string>, current: Vars): Vars {
    if keep == [] then envs
    else
      var k := keep[|keep| - 1];
      var before := WithKept(envs, keep[..|keep| - 1], current);
      if k in current && k !in before then before[k := current[k]] else before
  }

  // A variable to keep is there if the process has it or the call gives it, the call first.
  lemma {:induction false} KeptReads(envs: Vars, keep: seq<string>, current: Vars, k: string)
    ensures k in WithKept(envs, keep, current) <==> k in envs || (k in keep && k in current)
    ensures k in WithKept(envs, keep, current) ==>
              WithKept(envs, keep, current)[k] == if k in envs then envs[k] else current[k]
    decreases |keep|
  {
    if keep != [] {
      var n := |keep| - 1;
      KeptReads(envs, keep[..n], current, k);
      assert keep == keep[..n] + [keep[n]];
    }
  }

  // Returns what restores the environment, and whether it was established. When it was not,
  // the old variables are gone all the same.
  method EstablishEnv(p: Process, envs: EnvMap, keep: seq<string>) returns (saved: seq<string>, ok: bool)
    modifies p, envs
    ensures envs.vars == WithKept(old(envs.vars), keep, old(p.vars))
    ensures IsEnviron(saved, old(p.vars))
    ensures ok == ValidVars(envs.vars)
    ensures ok ==> p.vars == envs.vars
    ensures !ok ==> exists done: set<string> :: done < envs.vars.Keys && p.vars == Only(envs.vars, done)
  {
    var i := 0;
    while i < |keep|
      invariant 0 <= i <= |keep| && p.vars == old(p.vars)
      invariant envs.vars == WithKept(old(envs.vars), keep[..i], p.vars)
    {
      assert keep[..i + 1][..i] == keep[..i];
      if keep[i] in p.vars && keep[i] !in envs.vars {
        envs.vars := envs.vars[keep[i] := p.vars[keep[i]]];
      }
      i := i + 1;
    }
    assert keep[..i] == keep;
    saved := p.Environ();
    p.vars := map[];
    ok := p.SetAll(envs.vars);
    assert map[] + envs.vars == envs.vars;
    assert forall done: set<string> :: map[] + Only(envs.vars, done) == Only(envs.vars, done);
  }

  method RestoreEnv(p: Process, saved: seq<string>, ghost was: Vars) returns (ok: bool)
    requires ValidVars(was) && IsEnviron(saved, was)
    modifies p
    ensures ok && p.vars == was
  {
    EnvironRoundTrip(saved, was);
    p.vars := map[];
    var originalSplit := SplitEnv(saved);
    ok := p.SetAll(originalSplit);
    assert map[] + was == was;
  }

  // Fetch runs inside Apply, through the chart's loader. Both put back what they found on
  // every way out but one: with a variable that the system does not take they give up before
  // they have deferred the restore. The flags say how far the library calls get.
  method Fetch(p: Process, config: Vars, works: bool) returns (ok: bool)
    requires ValidVars(p.vars)
    modifies p
    ensures if ValidVars(config) then p.vars == old(p.vars) && ok == works else !ok && p.vars.Keys <= config.Keys
  {
    var envs := new EnvMap(config);
    var saved, established := EstablishEnv(p, envs, []);
    if !established { return false; }
    ok := works;
    var _ := RestoreEnv(p, saved, old(p.vars));
  }

  method Apply(p: Process, config: Vars, inits: bool, fetches: bool, installs: bool) returns (ok: bool)
    requires ValidVars(p.vars)
    modifies p
    ensures if ValidVars(config) then p.vars == old(p.vars) && ok == (inits && fetches && installs)
            else !ok && p.vars.Keys <= config.Keys
  {
    var envs := new EnvMap(config);
    var saved, established := EstablishEnv(p, envs, []);
    if !established { return false; }
    ok := false;
    if inits {
      var fetched := Fetch(p, config, fetches);
      assert p.vars == config;
      ok := fetched && installs;
    }
    var _ := RestoreEnv(p, saved, old(p.vars));
  }

  // ---- Calls that overlap -----------------------------------------------------------------------

  datatype Event = Establish(id: nat, envs: Vars) | Restore(id: nat)

  // Every restore has its establish before it.
  predicate Matched(trace: seq<Event>) {
    forall i | 0 <= i < |trace| && trace[i].Restore? :: EstablishedAt(trace[..i], trace[i].id).Some?
  }

  // Where the call was last established.
  function EstablishedAt(trace: seq<Event>, id: nat): (at: Option<nat>)
    ensures at.Some? ==> at.value < |trace|
  {
    if trace == [] then None
    else
      var n := |trace| - 1;
      if trace[n].Establish? && trace[n].id == id then Some(n) else EstablishedAt(trace[..n], id)
  }

  lemma MatchedInit(trace: seq<Event>, n: nat)
    requires Matched(trace) && n <= |trace|
    ensures Matched(trace[..n])
  {
    forall i | 0 <= i < n && trace[..n][i].Restore? ensures EstablishedAt(trace[..n][..i], trace[..n][i].id).Some? {
      assert trace[..n][..i] == trace[..i];
    }
  }

  // The environment after the trace: a restore brings back the one before its establish.
  function After(start: Vars, trace: seq<Event>): Vars
    requires Matched(trace)
    decreases |trace|
  {
    if trace == [] then start
    else
      var n := |trace| - 1;
      match trace[n]
      case Establish(_, envs) => envs
      case Restore(id) =>
        var at := EstablishedAt(trace[..n], id).value;
        MatchedInit(trace, at);
        After(start, trace[..at])
  }

  predicate AllValid(trace: seq<Event>) {
    forall i | 0 <= i < |trace| && trace[i].Establish? :: ValidVars(trace[i].envs)
  }

  lemma {:induction false} AfterValid(start: Vars, trace: seq<Event>)
    requires Matched(trace) && AllValid(trace) && ValidVars(start)
    ensures ValidVars(After(start, trace))
    decreases |trace|
  {
    if trace != [] && trace[|trace| - 1].Restore? {
      var at := EstablishedAt(trace[..|trace| - 1], trace[|trace| - 1].id).value;
      MatchedInit(trace, at);
      AfterValid(start, trace[..at]);
    }
  }

  lemma AfterOne(start: Vars, trace: seq<Event>, i: nat)
    requires Matched(trace) && i < |trace|
    ensures Matched(trace[..i]) && Matched(trace[..i + 1])
    ensures trace[i].Establish? ==> After(start, trace[..i + 1]) == trace[i].envs
    ensures trace[i].Restore? ==>
              EstablishedAt(trace[..i], trace[i].id).Some?
              && var at := EstablishedAt(trace[..i], trace[i].id).value;
                 Matched(trace[..at]) && After(start, trace[..i + 1]) == After(start, trace[..at])
    ensures forall id: nat ::
              EstablishedAt(trace[..i + 1], id) ==
              if trace[i].Establish? && trace[i].id == id then Some(i) else EstablishedAt(trace[..i], id)
  {
    MatchedInit(trace, i);
    MatchedInit(trace, i + 1);
    assert trace[..i + 1][..i] == trace[..i];
    if trace[i].Restore? {
      var at := EstablishedAt(trace[..i], trace[i].id).value;
      MatchedInit(trace, at);
      assert trace[..i + 1][..at] == trace[..at];
    }
  }

  // What has been saved for a call is the environment before it was last established.
  ghost predicate IsSaved(start: Vars, trace: seq<Event>, n: nat, id: nat, saved: map<nat, seq<string>>,
                          before: map<nat, Vars>)
    requires n <= |trace|
  {
    var at := EstablishedAt(trace[..n], id);
    at.Some? ==>
      id in saved && id in before && IsEnviron(saved[id], before[id])
      && Matched(trace[..at.value]) && before[id] == After(start, trace[..at.value])
  }

  // The calls of a trace, carried out on a process one by one, leave the environment that
  // the trace says.
  method Execute(p: Process, trace: seq<Event>)
    requires Matched(trace) && AllValid(trace) && ValidVars(p.vars)
    modifies p
    ensures p.vars == After(old(p.vars), trace)
  {
    hide After, Matched, EstablishedAt, IsEnviron;
    var saved: map<nat, seq<string>> := map[];
    ghost var before: map<nat, Vars> := map[];
    ghost var start := p.vars;
    StartOf(start, trace);
    var i := 0;
    while i < |trace|
      invariant 0 <= i <= |trace| && Matched(trace[..i]) && p.vars == After(start, trace[..i])
      invariant forall id: nat :: IsSaved(start, trace, i, id, saved, before)
    {
      AfterOne(start, trace, i);
      ghost var saved', before' := saved, before;
      match trace[i] {
        case Establish(id, envs) =>
          var call := new EnvMap(envs);
          before := before[id := p.vars];
          var lines, ok := EstablishEnv(p, call, []);
          saved := saved[id := lines];
        case Restore(id) =>
          assert IsSaved(start, trace, i, id, saved, before);
          ghost var at := EstablishedAt(trace[..i], id).value;
          assert AllValid(trace[..at]);
          AfterValid(start, trace[..at]);
          var _ := RestoreEnv(p, saved[id], before[id]);
      }
      i := i + 1;
      forall id: nat ensures IsSaved(start, trace, i, id, saved, before) {
        assert IsSaved(start, trace, i - 1, id, saved', before');
      }
    }
    assert trace[..i] == trace;
  }

  lemma StartOf(start: Vars, trace: seq<Event>)
    ensures Matched(trace[..0]) && After(start, trace[..0]) == start
    ensures forall id: nat :: EstablishedAt(trace[..0], id) == None
  {
  }

  // Going back from restore to establish, one gets to the start.
  predicate LeadsHome(trace: seq<Event>)
    requires Matched(trace)
    decreases |trace|
  {
    trace == [] ||
    var n := |trace| - 1;
    trace[n].Restore? &&
    var at := EstablishedAt(trace[..n], trace[n].id).value;
    (MatchedInit(trace, at); LeadsHome(trace[..at]))
  }

  // The environment a trace that does not lead home leaves, whatever it started from.
  function Leaves(trace: seq<Event>): Vars
    requires Matched(trace) && !LeadsHome(trace)
    decreases |trace|
  {
    var n := |trace| - 1;
    match trace[n]
    case Establish(_, envs) => envs
    case Restore(id) =>
      var at := EstablishedAt(trace[..n], id).value;
      MatchedInit(trace, at);
      Leaves(trace[..at])
  }

  lemma {:induction false} AfterIs(start: Vars, trace: seq<Event>)
    requires Matched(trace)
    ensures After(start, trace) == if LeadsHome(trace) then start else Leaves(trace)
    decreases |trace|
  {
    if trace != [] {
      var n := |trace| - 1;
      if trace[n].Restore? {
        var at := EstablishedAt(trace[..n], trace[n].id).value;
        MatchedInit(trace, at);
        AfterIs(start, trace[..at]);
      }
    }
  }

  // Overlapping calls leave every environment as they found it exactly when they lead home.
  lemma RestoredExactly(trace: seq<Event>)
    requires Matched(trace)
    ensures LeadsHome(trace) <==> forall start :: After(start, trace) == start
  {
    if LeadsHome(trace) {
      forall start ensures After(start, trace) == start {
        AfterIs(start, trace);
      }
    } else {
      var left := Leaves(trace);
      var start: Vars := if left == map[] then map["PATH" := ""] else map[];
      AfterIs(start, trace);
      assert After(start, trace) != start by {
        if left == map[] { assert "PATH" in start; }
      }
    }
  }

  // ---- Nested calls and overlapping ones -----------------------------------------------------------

  // Calls in sequence, each with the calls made inside it.
  datatype Calls = Nil | Call(envs: Vars, inner: Calls, next: Calls)

  function Count(calls: Calls): nat {
    match calls
    case Nil => 0
    case Call(_, inner, next) => 1 + Count(inner) + Count(next)
  }

  // Their events, the calls numbered from id.
  function Events(calls: Calls, id: nat): seq<Event> {
    match calls
    case Nil => []
    case Call(envs, inner, next) =>
      [Establish(id, envs)] + (Events(inner, id + 1) + ([Restore(id)] + Events(next, id + 1 + Count(inner))))
  }

  predicate Absent(trace: seq<Event>, id: nat) {
    forall i | 0 <= i < |trace| :: trace[i].Establish? ==> trace[i].id != id
  }

  lemma {:induction false} EventsNumbered(calls: Calls, id: nat)
    ensures forall i | 0 <= i < |Events(calls, id)| :: id <= Events(calls, id)[i].id < id + Count(calls)
    decreases calls
  {
    match calls
    case Nil =>
    case Call(envs, inner, next) =>
      EventsNumbered(inner, id + 1);
      EventsNumbered(next, id + 1 + Count(inner));
  }

  lemma {:induction false} EstablishedBefore(before: seq<Event>, trace: seq<Event>, id: nat)
    requires Absent(trace, id)
    ensures EstablishedAt(before + trace, id) == EstablishedAt(before, id)
    decreases |trace|
  {
    if trace == [] {
      assert before + trace == before;
    } else {
      var n := |trace| - 1;
      assert (before + trace)[..|before| + n] == before + trace[..n];
      EstablishedBefore(before, trace[..n], id);
    }
  }

  lemma MatchedSnoc(trace: seq<Event>, e: Event)
    requires Matched(trace) && (e.Restore? ==> EstablishedAt(trace, e.id).Some?)
    ensures Matched(trace + [e])
  {
    forall i | 0 <= i < |trace| + 1 && (trace + [e])[i].Restore?
      ensures EstablishedAt((trace + [e])[..i], (trace + [e])[i].id).Some?
    {
      assert (trace + [e])[..i] == trace[..i];
      assert trace[..|trace|] == trace;
    }
  }

  lemma RestoreGoesBack(start: Vars, trace: seq<Event>, id: nat, at: nat)
    requires Matched(trace) && EstablishedAt(trace, id) == Some(at)
    ensures Matched(trace[..at]) && Matched(trace + [Restore(id)])
    ensures After(start, trace + [Restore(id)]) == After(start, trace[..at])
  {
    MatchedSnoc(trace, Restore(id));
    MatchedInit(trace, at);
    assert (trace + [Restore(id)])[..|trace|] == trace;
    assert (trace + [Restore(id)])[..at] == trace[..at];
  }

  // A call that begins, and what is called inside it.
  lemma CallBegins(before: seq<Event>, envs: Vars, inner: Calls, id: nat)
    requires Matched(before)
    ensures Matched(before + [Establish(id, envs)])
    ensures EstablishedAt(before + [Establish(id, envs)] + Events(inner, id + 1), id) == Some(|before|)
  {
    var begun := before + [Establish(id, envs)];
    MatchedSnoc(before, Establish(id, envs));
    EventsNumbered(inner, id + 1);
    EstablishedBefore(begun, Events(inner, id + 1), id);
    assert begun[..|before|] == before;
  }

  // Well-nested calls, as when Apply fetches the chart, end as they began.
  lemma {:induction false} NestedRestores(start: Vars, before: seq<Event>, calls: Calls, id: nat)
    requires Matched(before)
    ensures Matched(before + Events(calls, id))
    ensures After(start, before + Events(calls, id)) == After(start, before)
    decreases calls
  {
    hide After, Matched, EstablishedAt;
    match calls {
      case Nil =>
        assert before + [] == before;
      case Call(envs, inner, next) =>
        var begun := before + [Establish(id, envs)];
        CallBegins(before, envs, inner, id);
        NestedRestores(start, begun, inner, id + 1);
        var ran := begun + Events(inner, id + 1);
        RestoreGoesBack(start, ran, id, |before|);
        var closed := ran + [Restore(id)];
        assert ran[..|before|] == before;
        NestedRestores(start, closed, next, id + 1 + Count(inner));
        Regroup(before, [Establish(id, envs)], Events(inner, id + 1), [Restore(id)],
                Events(next, id + 1 + Count(inner)));
    }
  }

  lemma Regroup(a: seq<Event>, b: seq<Event>, c: seq<Event>, d: seq<Event>, e: seq<Event>)
    ensures a + (b + (c + (d + e))) == a + b + c + d + e
  {
    assert c + (d + e) == c + d + e;
    assert b + (c + d + e) == b + c + d + e;
    assert a + (b + c + d + e) == a + b + c + d + e;
  }

  // Two calls that overlap, the first to begin the first to end, leave the variables of the
  // first behind.
  lemma OverlapLeaks(start: Vars, first: Vars, second: Vars)
    ensures var trace := [Establish(1, first), Establish(2, second), Restore(1), Restore(2)];
            Matched(trace) && !LeadsHome(trace) && After(start, trace) == first
  {
    var a := [Establish(1, first)];
    var b := a + [Establish(2, second)];
    var c := b + [Restore(1)];
    var d := c + [Restore(2)];
    MatchedSnoc([], Establish(1, first));
    assert [] + a == a;
    MatchedSnoc(a, Establish(2, second));
    assert b[..1] == a && a[..0] == [];
    assert EstablishedAt(a, 1) == Some(0);
    assert EstablishedAt(b, 1) == Some(0);
    MatchedSnoc(b, Restore(1));
    assert c[..2] == b;
    assert EstablishedAt(b, 2) == Some(1) && EstablishedAt(c, 2) == Some(1);
    MatchedSnoc(c, Restore(2));
    assert d[..3] == c && c[..1] == a;
    assert d == [Establish(1, first), Establish(2, second), Restore(1), Restore(2)];
  }
}
