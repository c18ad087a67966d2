// The events table, its queries, and the choice of which events may be dispatched.
// The position of a row is its rank by created_at, and is also used as its id.
module Events {
  import opened Wrappers

  datatype EventType =
    | CreateTeam | UpdateTeam | DeleteTeam
    | CreateAirflow | UpdateAirflow | DeleteAirflow
    | CreateUserGSM | DeleteUserGSM
    | HelmRolloutAirflow | HelmRollbackAirflow | HelmUninstallAirflow
    | DeleteSchedulerPods

  datatype Status = New | Processing | Completed | Pending | Failed | ManualFailed | DeadlineReached

  datatype Event = Event(id: nat, owner: string, typ: string, deadline: string, status: Status, retryCount: nat)

  // ---- Type names ---------------------------------------------------------

  function TypeName(t: EventType): string {
    match t
    case CreateTeam => "create:team"
    case UpdateTeam => "update:team"
    case DeleteTeam => "delete:team"
    case CreateAirflow => "create:airflow"
    case UpdateAirflow => "update:airflow"
    case DeleteAirflow => "delete:airflow"
    case CreateUserGSM => "create:usergsm"
    case DeleteUserGSM => "delete:usergsm"
    case HelmRolloutAirflow => "rolloutAirflow:helm"
    case HelmRollbackAirflow => "rollbackAirflow:helm"
    case HelmUninstallAirflow => "uninstallAirflow:helm"
    case DeleteSchedulerPods => "restart:airflowscheduler"
  }

  // The switch that finds a worker for a type; None where it finds none.
  function ParseType(s: string): Option<EventType> {
    if s == "create:team" then Some(CreateTeam)
    else if s == "update:team" then Some(UpdateTeam)
    else if s == "create:usergsm" then Some(CreateUserGSM)
    else if s == "create:airflow" then Some(CreateAirflow)
    else if s == "update:airflow" then Some(UpdateAirflow)
    else if s == "delete:team" then Some(DeleteTeam)
    else if s == "delete:usergsm" then Some(DeleteUserGSM)
    else if s == "delete:airflow" then Some(DeleteAirflow)
    else if s == "rolloutAirflow:helm" then Some(HelmRolloutAirflow)
    else if s == "rollbackAirflow:helm" then Some(HelmRollbackAirflow)
    else if s == "uninstallAirflow:helm" then Some(HelmUninstallAirflow)
    else if s == "restart:airflowscheduler" then Some(DeleteSchedulerPods)
    else None
  }

  function UntilColon(s: string): string {
    if s == "" || s[0] == ':' then "" else [s[0]] + UntilColon(s[1..])
  }

  // The second piece of a split at ':'.
  function Resource(typ: string): string {
    var head := |UntilColon(typ)|;
    if head < |typ| then UntilColon(typ[head + 1..]) else ""
  }

  lemma UntilColonStops(head: string, tail: string)
    requires ':' !in head
    ensures UntilColon(head) == head
    ensures UntilColon(head + ":" + tail) == head
  {
    if head == "" {
      assert (head + ":" + tail)[0] == ':';
    } else {
      assert (head + ":" + tail)[1..] == head[1..] + ":" + tail;
      UntilColonStops(head[1..], tail);
    }
  }

  // A third piece makes no difference.
  lemma ResourceOf(action: string, resource: string, more: string)
    requires ':' !in action && ':' !in resource
    ensures Resource(action + ":" + resource) == resource
    ensures Resource(action + ":" + resource + ":" + more) == resource
  {
    UntilColonStops(action, resource + ":" + more);
    UntilColonStops(resource, more);
    assert action + ":" + resource + ":" + more == action + ":" + (resource + ":" + more);
    assert (action + ":" + (resource + ":" + more))[|action| + 1..] == resource + ":" + more;
    UntilColonStops(action, resource);
    UntilColonStops(resource, "");
    assert (action + ":" + resource)[|action| + 1..] == resource;
  }

  // Every registered type name finds its own worker, and contains the colon that the
  // class comparison needs.
  lemma TypeNamesParse(t: EventType)
    ensures ParseType(TypeName(t)) == Some(t)
    ensures ':' in TypeName(t)
  {
    var s := TypeName(t);
    match t
    case CreateTeam | UpdateTeam | DeleteTeam => assert s[6] == ':' && s[7] == 't';
    case CreateAirflow | UpdateAirflow | DeleteAirflow => assert s[6] == ':' && s[7] == 'a';
    case CreateUserGSM | DeleteUserGSM => assert s[6] == ':' && s[7] == 'u';
    case HelmRolloutAirflow => assert s[14] == ':';
    case HelmRollbackAirflow => assert s[15] == ':';
    case HelmUninstallAirflow => assert s[16] == ':';
    case DeleteSchedulerPods => assert s[7] == ':';
  }

  // ---- Selection ----------------------------------------------------------

  predicate Upcoming(st: Status) {
    st == New || st == Pending || st == DeadlineReached
  }

  predicate Terminal(st: Status) {
    st == Completed || st == Failed || st == ManualFailed
  }

  predicate SameClass(a: Event, b: Event) {
    a.owner == b.owner && Resource(a.typ) == Resource(b.typ)
  }

  predicate SameKind(a: Event, b: Event) {
    a.id == b.id && a.owner == b.owner && a.typ == b.typ && a.deadline == b.deadline
  }

  predicate Ranked(rows: seq<Event>) {
    forall i | 0 <= i < |rows| :: rows[i].id == i
  }

  function UpcomingRows(rows: seq<Event>): seq<Event> {
    if rows == [] then []
    else
      var e := rows[|rows| - 1];
      UpcomingRows(rows[..|rows| - 1]) + if Upcoming(e.status) then [e] else []
  }

  // Newest first, as the query orders it.
  function ProcessingRows(rows: seq<Event>): seq<Event> {
    if rows == [] then []
    else
      var e := rows[|rows| - 1];
      (if e.status == Processing then [e] else []) + ProcessingRows(rows[..|rows| - 1])
  }

  predicate ContainsClass(events: seq<Event>, e: Event) {
    exists f | f in events :: SameClass(f, e)
  }

  predicate CanCompare(f: Event, e: Event) {
    ':' in f.typ && ':' in e.typ
  }

  // The search for e's class comes to an event that it cannot compare with e: there is no
  // second piece to index.
  predicate SearchPanics(events: seq<Event>, e: Event) {
    exists i | 0 <= i < |events| ::
      !CanCompare(events[i], e) && forall j | 0 <= j < i :: CanCompare(events[j], e) && !SameClass(events[j], e)
  }

  predicate TestPanics(processing: seq<Event>, chosen: seq<Event>, e: Event) {
    SearchPanics(chosen, e) || (!ContainsClass(chosen, e) && SearchPanics(processing, e))
  }

  predicate ChoicePanics(processing: seq<Event>, upcoming: seq<Event>) {
    exists n | 0 <= n < |upcoming| :: TestPanics(processing, Dispatchable(processing, upcoming[..n]), upcoming[n])
  }

  predicate FetchPanics(rows: seq<Event>) {
    ChoicePanics(ProcessingRows(rows), UpcomingRows(rows))
  }

  function Dispatchable(processing: seq<Event>, upcoming: seq<Event>): seq<Event> {
    if upcoming == [] then []
    else
      var chosen := Dispatchable(processing, upcoming[..|upcoming| - 1]);
      var e := upcoming[|upcoming| - 1];
      if ContainsClass(chosen, e) || ContainsClass(processing, e) then chosen else chosen + [e]
  }

  function Fetchable(rows: seq<Event>): seq<Event> {
    Dispatchable(ProcessingRows(rows), UpcomingRows(rows))
  }

  // The types that a maintenance period holds back.
  predicate Pausable(typ: string) {
    var t := ParseType(typ);
    t.Some? && (t.value.CreateAirflow? || t.value.UpdateAirflow?
                || t.value.HelmRolloutAirflow? || t.value.HelmRollbackAirflow?)
  }

  function OmitPaused(events: seq<Event>, paused: set<string>): seq<Event> {
    if events == [] then []
    else
      var e := events[|events| - 1];
      OmitPaused(events[..|events| - 1], paused)
      + if Pausable(e.typ) && e.owner in paused then [] else [e]
  }

  lemma UpcomingRowsExact(rows: seq<Event>, e: Event)
    ensures e in UpcomingRows(rows) <==> e in rows && e.status in {New, Pending, DeadlineReached}
  {
    if rows != [] {
      assert rows == rows[..|rows| - 1] + [rows[|rows| - 1]];
      UpcomingRowsExact(rows[..|rows| - 1], e);
    }
  }

  lemma ProcessingRowsExact(rows: seq<Event>, e: Event)
    ensures e in ProcessingRows(rows) <==> e in rows && e.status == Processing
  {
    if rows != [] {
      assert rows == rows[..|rows| - 1] + [rows[|rows| - 1]];
      ProcessingRowsExact(rows[..|rows| - 1], e);
    }
  }

  predicate Ascending(events: seq<Event>) {
    forall i, j | 0 <= i < j < |events| :: events[i].id < events[j].id
  }

  lemma UpcomingRowsAscend(rows: seq<Event>)
    requires Ranked(rows)
    ensures Ascending(UpcomingRows(rows))
    ensures forall e | e in UpcomingRows(rows) :: e.id < |rows|
  {
    if rows != [] {
      UpcomingRowsAscend(rows[..|rows| - 1]);
    }
  }

  // Newest first.
  lemma ProcessingRowsDescend(rows: seq<Event>)
    requires Ranked(rows)
    ensures forall i, j | 0 <= i < j < |ProcessingRows(rows)| :: ProcessingRows(rows)[j].id < ProcessingRows(rows)[i].id
    ensures forall e | e in ProcessingRows(rows) :: e.id < |rows|
  {
    if rows != [] { ProcessingRowsDescend(rows[..|rows| - 1]); }
  }

  lemma DispatchableSnoc(processing: seq<Event>, upcoming: seq<Event>)
    ensures upcoming == [] ==> Dispatchable(processing, upcoming) == []
    ensures upcoming != [] ==>
              var n := |upcoming| - 1;
              var chosen, e := Dispatchable(processing, upcoming[..n]), upcoming[n];
              Dispatchable(processing, upcoming) ==
              if !ContainsClass(chosen, e) && !ContainsClass(processing, e) then chosen + [e] else chosen
  {
  }

  // With no event of e's class processing, the choice has one of that class exactly when
  // the candidates do.
  lemma ChosenCoversClass(processing: seq<Event>, upcoming: seq<Event>, e: Event)
    requires !ContainsClass(processing, e)
    ensures ContainsClass(Dispatchable(processing, upcoming), e) <==> ContainsClass(upcoming, e)
  {
    if upcoming != [] {
      var n := |upcoming| - 1;
      assert upcoming == upcoming[..n] + [upcoming[n]];
      ChosenCoversClass(processing, upcoming[..n], e);
      var chosen := Dispatchable(processing, upcoming[..n]);
      var last := upcoming[n];
      if SameClass(last, e) {
        assert last in upcoming;
        if ContainsClass(chosen, last) {
          var f :| f in chosen && SameClass(f, last);
          assert SameClass(f, e);
        } else {
          assert last in chosen + [last];
        }
      } else if ContainsClass(chosen, e) {
        var f :| f in chosen && SameClass(f, e);
        assert f in Dispatchable(processing, upcoming);
      }
    }
  }

  // The choice, exactly: candidates with nothing of their class processing and no
  // earlier candidate of their class.
  lemma DispatchableExact(processing: seq<Event>, upcoming: seq<Event>, e: Event)
    requires Ascending(upcoming)
    ensures e in Dispatchable(processing, upcoming) <==>
            && e in upcoming
            && !ContainsClass(processing, e)
            && (forall f | f in upcoming && f.id < e.id :: !SameClass(f, e))
  {
    if upcoming != [] {
      var n := |upcoming| - 1;
      var init, last := upcoming[..n], upcoming[n];
      assert upcoming == init + [last];
      DispatchableExact(processing, init, e);
      DispatchableSnoc(processing, upcoming);
      assert forall f | f in init :: f.id < last.id;
      hide Dispatchable, SameClass;
      if e == last {
        if !ContainsClass(processing, e) {
          ChosenCoversClass(processing, init, e);
        }
        assert e !in init;
      }
    }
  }

  lemma OmitPausedExact(events: seq<Event>, paused: set<string>, e: Event)
    ensures e in OmitPaused(events, paused) <==> e in events && !(Pausable(e.typ) && e.owner in paused)
  {
    if events != [] {
      assert events == events[..|events| - 1] + [events[|events| - 1]];
      OmitPausedExact(events[..|events| - 1], paused, e);
    }
  }

  lemma DispatchableAscends(processing: seq<Event>, upcoming: seq<Event>)
    requires Ascending(upcoming)
    ensures Ascending(Dispatchable(processing, upcoming))
    ensures forall e | e in Dispatchable(processing, upcoming) :: e in upcoming
  {
    if upcoming != [] {
      var n := |upcoming| - 1;
      assert upcoming == upcoming[..n] + [upcoming[n]];
      DispatchableAscends(processing, upcoming[..n]);
      assert forall f | f in upcoming[..n] :: f.id < upcoming[n].id;
    }
  }

  lemma OmitPausedAscends(events: seq<Event>, paused: set<string>)
    requires Ascending(events)
    ensures Ascending(OmitPaused(events, paused))
    ensures forall e | e in OmitPaused(events, paused) :: e in events
  {
    if events != [] {
      var n := |events| - 1;
      assert events == events[..n] + [events[n]];
      OmitPausedAscends(events[..n], paused);
      assert forall f | f in events[..n] :: f.id < events[n].id;
    }
  }

  // What a fetch hands to the dispatch loop, exactly. It is first-in-first-out per
  // (owner, resource): a paused older event blocks its class like any other.
  lemma FetchExact(rows: seq<Event>, paused: set<string>, e: Event)
    requires Ranked(rows)
    ensures e in OmitPaused(Fetchable(rows), paused) <==>
            && e in rows && e.status in {New, Pending, DeadlineReached}
            && !(Pausable(e.typ) && e.owner in paused)
            && (forall f | f in rows && SameClass(f, e) :: f.status != Processing)
            && (forall f | f in rows && SameClass(f, e) && f.id < e.id ::
                  f.status !in {New, Pending, DeadlineReached})
  {
    OmitPausedExact(Fetchable(rows), paused, e);
    UpcomingRowsAscend(rows);
    DispatchableExact(ProcessingRows(rows), UpcomingRows(rows), e);
    forall f ensures (f in UpcomingRows(rows) <==> f in rows && Upcoming(f.status))
             ensures (f in ProcessingRows(rows) <==> f in rows && f.status == Processing) {
      UpcomingRowsExact(rows, f);
      ProcessingRowsExact(rows, f);
    }
  }

  // Two events of one fetch never share an owner and resource.
  lemma FetchOnePerClass(rows: seq<Event>, paused: set<string>)
    requires Ranked(rows)
    ensures var q := OmitPaused(Fetchable(rows), paused);
            Ascending(q) && forall i, j | 0 <= i < j < |q| :: !SameClass(q[i], q[j])
  {
    var q := OmitPaused(Fetchable(rows), paused);
    UpcomingRowsAscend(rows);
    DispatchableAscends(ProcessingRows(rows), UpcomingRows(rows));
    OmitPausedAscends(Fetchable(rows), paused);
    forall i, j | 0 <= i < j < |q| ensures !SameClass(q[i], q[j]) {
      FetchExact(rows, paused, q[i]);
      FetchExact(rows, paused, q[j]);
    }
  }

  // If anything at all is upcoming in a class with nothing processing, a fetch with no
  // pauses is not empty.
  lemma FetchNotEmpty(rows: seq<Event>, i: nat)
    requires Ranked(rows) && i < |rows| && Upcoming(rows[i].status)
    requires forall f | f in rows :: f.status != Processing
    ensures OmitPaused(Fetchable(rows), {}) != []
    decreases i
  {
    if j: nat :| j < i && Upcoming(rows[j].status) {
      FetchNotEmpty(rows, j);
    } else {
      FetchExact(rows, {}, rows[i]);
    }
  }

  // ---- The table as the repository keeps it ---------------------------------

  class EventRepo {
    var rows: seq<Event>

    constructor ()
      ensures rows == []
    {
      rows := [];
    }

    method EventCreate(owner: string, typ: string, deadline: string)
      modifies this
      ensures rows == old(rows) + [Event(|old(rows)|, owner, typ, deadline, New, 0)]
    {
      rows := rows + [Event(|rows|, owner, typ, deadline, New, 0)];
    }

    method EventSetStatus(id: nat, status: Status)
      requires id < |rows|
      modifies this
      ensures rows == old(rows)[id := old(rows)[id].(status := status)]
    {
      rows := rows[id := rows[id].(status := status)];
    }

    method EventIncrementRetryCount(id: nat)
      requires id < |rows|
      modifies this
      ensures rows == old(rows)[id := old(rows)[id].(retryCount := old(rows)[id].retryCount + 1)]
    {
      rows := rows[id := rows[id].(retryCount := rows[id].retryCount + 1)];
    }

    method EventsReset()
      modifies this
      ensures rows == ResetRows(old(rows))
    {
      rows := ResetRows(rows);
    }

    method EventsUpcomingGet() returns (items: seq<Event>)
      ensures items == UpcomingRows(rows)
    {
      items := [];
      for i := 0 to |rows|
        invariant items == UpcomingRows(rows[..i])
      {
        assert rows[..i + 1][..i] == rows[..i];
        if Upcoming(rows[i].status) { items := items + [rows[i]]; }
      }
      assert rows[..|rows|] == rows;
    }

    method EventsProcessingGet() returns (items: seq<Event>)
      ensures items == ProcessingRows(rows)
    {
      items := [];
      for i := 0 to |rows|
        invariant items == ProcessingRows(rows[..i])
      {
        assert rows[..i + 1][..i] == rows[..i];
        if rows[i].status == Processing { items := [rows[i]] + items; }
      }
      assert rows[..|rows|] == rows;
    }

    // None is a panic, which a type without a colon brings about as soon as it is compared.
    method DispatchableEventsGet() returns (chosen: Option<seq<Event>>)
      ensures chosen.Some? ==> chosen.value == Fetchable(rows)
      ensures chosen == None <==> FetchPanics(rows)
    {
      hide TestPanics, SearchPanics, ContainsClass, ParseType, Dispatchable, ProcessingRows, UpcomingRows;
      var processing := EventsProcessingGet();
      var upcoming := EventsUpcomingGet();
      DispatchableSnoc(processing, []);
      var dispatchableEvents: seq<Event> := [];
      for i := 0 to |upcoming|
        invariant dispatchableEvents == Dispatchable(processing, upcoming[..i])
        invariant forall n | 0 <= n < i ::
                    !TestPanics(processing, Dispatchable(processing, upcoming[..n]), upcoming[n])
      {
        assert upcoming[..i + 1][..i] == upcoming[..i];
        DispatchableSnoc(processing, upcoming[..i + 1]);
        var dispatchable := IsEventDispatchable(processing, dispatchableEvents, upcoming[i]);
        if dispatchable == None { return None; }
        if dispatchable.value { dispatchableEvents := dispatchableEvents + [upcoming[i]]; }
      }
      assert upcoming[..|upcoming|] == upcoming;
      chosen := Some(dispatchableEvents);
    }
  }

  // With a colon in every type nothing panics.
  lemma ColonsCompare(rows: seq<Event>)
    requires forall e | e in rows :: ':' in e.typ
    ensures !FetchPanics(rows)
  {
    hide ParseType;
    var processing, upcoming := ProcessingRows(rows), UpcomingRows(rows);
    forall e ensures (e in processing ==> ':' in e.typ) && (e in upcoming ==> ':' in e.typ) {
      UpcomingRowsExact(rows, e);
      ProcessingRowsExact(rows, e);
    }
    forall n | 0 <= n < |upcoming|
      ensures !TestPanics(processing, Dispatchable(processing, upcoming[..n]), upcoming[n])
    {
      var chosen := Dispatchable(processing, upcoming[..n]);
      ChosenAreCandidates(processing, upcoming[..n]);
      assert forall f | f in chosen :: CanCompare(f, upcoming[n]);
      assert forall f | f in processing :: CanCompare(f, upcoming[n]);
    }
  }

  lemma ColonOfReadable(typ: string)
    requires ParseType(typ).Some?
    ensures ':' in typ
  {
    var t := ParseType(typ).value;
    assert typ == TypeName(t);
    TypeNamesParse(t);
    hide ParseType, TypeName;
  }

  // One row up for selection and nothing processing: it is compared with nothing.
  lemma LoneRowCompares(rows: seq<Event>, i: nat)
    requires Ranked(rows) && i < |rows|
    requires forall j | 0 <= j < |rows| && j != i :: !Upcoming(rows[j].status) && rows[j].status != Processing
    requires rows[i].status != Processing
    ensures !FetchPanics(rows)
  {
    hide ParseType;
    var processing, upcoming := ProcessingRows(rows), UpcomingRows(rows);
    if processing != [] { ProcessingRowsExact(rows, processing[0]); }
    UpcomingRowsAscend(rows);
    forall k | 0 <= k < |upcoming| ensures upcoming[k] == rows[i] { UpcomingRowsExact(rows, upcoming[k]); }
    assert |upcoming| > 1 ==> upcoming[0].id < upcoming[1].id;
    assert upcoming[..0] == [];
  }

  lemma SomethingChosen(upcoming: seq<Event>)
    requires upcoming != []
    ensures Dispatchable([], upcoming) != []
  {
    assert upcoming[0] in upcoming && SameClass(upcoming[0], upcoming[0]);
    ChosenCoversClass([], upcoming, upcoming[0]);
  }

  // A row without a colon that is up for selection makes the fetch panic exactly when any
  // other row is up for selection or processing.
  lemma ColonFreePanics(rows: seq<Event>, i: nat)
    requires Ranked(rows) && i < |rows| && Upcoming(rows[i].status) && ':' !in rows[i].typ
    ensures FetchPanics(rows) <==>
            exists j :: 0 <= j < |rows| && j != i && (Upcoming(rows[j].status) || rows[j].status == Processing)
  {
    hide ParseType, Dispatchable;
    var e, processing, upcoming := rows[i], ProcessingRows(rows), UpcomingRows(rows);
    if j :| 0 <= j < |rows| && j != i && (Upcoming(rows[j].status) || rows[j].status == Processing) {
      UpcomingRowsExact(rows, e);
      UpcomingRowsExact(rows, rows[j]);
      ProcessingRowsExact(rows, rows[j]);
      var k :| 0 <= k < |upcoming| && upcoming[k] == e;
      var before := Dispatchable(processing, upcoming[..k]);
      if processing != [] || k > 0 {
        if processing == [] { SomethingChosen(upcoming[..k]); }
        assert before != [] ==> !CanCompare(before[0], e);
        assert processing != [] ==> !CanCompare(processing[0], e);
        assert TestPanics(processing, before, e);
      } else {
        SomethingChosen(upcoming[..1]);
        var first := Dispatchable([], upcoming[..1]);
        ChosenAreCandidates([], upcoming[..1]);
        assert first[0] in first && first[0] in upcoming[..1];
        assert upcoming[..1] == [e];
        assert first[0] == e && !CanCompare(first[0], upcoming[1]);
        assert TestPanics([], first, upcoming[1]);
      }
    } else {
      LoneRowCompares(rows, i);
    }
  }

  lemma ChosenAreCandidates(processing: seq<Event>, upcoming: seq<Event>)
    ensures forall e | e in Dispatchable(processing, upcoming) :: e in upcoming
  {
    if upcoming != [] { ChosenAreCandidates(processing, upcoming[..|upcoming| - 1]); }
  }

  function ResetRows(rows: seq<Event>): (r: seq<Event>)
    ensures |r| == |rows|
  {
    seq(|rows|, i requires 0 <= i < |rows| =>
      if rows[i].status == Processing then rows[i].(status := Pending) else rows[i])
  }

  method IsEventDispatchable(processing: seq<Event>, chosen: seq<Event>, e: Event) returns (r: Option<bool>)
    ensures r == None <==> TestPanics(processing, chosen, e)
    ensures r.Some? ==> (r.value <==> !ContainsClass(chosen, e) && !ContainsClass(processing, e))
  {
    var c := ContainsEvent(chosen, e);
    if c == None { return None; }
    if c.value { return Some(false); }
    var p := ContainsEvent(processing, e);
    r := if p == None then None else Some(!p.value);
  }

  // The original splits both types at the colon and indexes the second piece, for as many
  // events as it compares.
  method ContainsEvent(events: seq<Event>, e: Event) returns (r: Option<bool>)
    ensures r == None <==> SearchPanics(events, e)
    ensures r.Some? ==> (r.value <==> ContainsClass(events, e))
  {
    for i := 0 to |events|
      invariant forall j | 0 <= j < i :: CanCompare(events[j], e) && !SameClass(events[j], e)
    {
      if !CanCompare(events[i], e) { return None; }
      if SameClass(events[i], e) { return Some(true); }
    }
    r := Some(false);
  }
}
