// The append-only table of global values: the newest row of a key counts, and deleting a
// key removes all its rows.
module GlobalStore {
  import opened Wrappers

  type ChartType = string

  // Rows are in order of insertion, so the newest of a key is the last.
  datatype Row = Row(key: string, value: string, chart: ChartType, encrypted: bool)

  datatype Stored = Stored(value: string, encrypted: bool)

  predicate Matches(row: Row, chart: ChartType, key: string) {
    row.key == key && row.chart == chart
  }

  function Newest(rows: seq<Row>, chart: ChartType, key: string): Option<Stored> {
    if rows == [] then None
    else
      var last := rows[|rows| - 1];
      if Matches(last, chart, key) then Some(Stored(last.value, last.encrypted))
      else Newest(rows[..|rows| - 1], chart, key)
  }

  function Without(rows: seq<Row>, chart: ChartType, key: string): seq<Row> {
    if rows == [] then []
    else
      var n := |rows| - 1;
      Without(rows[..n], chart, key) + if Matches(rows[n], chart, key) then [] else [rows[n]]
  }

  lemma NewestOfInsert(rows: seq<Row>, row: Row, chart: ChartType, key: string)
    ensures Newest(rows + [row], chart, key) ==
            if Matches(row, chart, key) then Some(Stored(row.value, row.encrypted)) else Newest(rows, chart, key)
  {
    assert (rows + [row])[..|rows|] == rows;
  }

  // Deleting a key leaves no row of it, and every other key as it was.
  lemma {:induction false} NewestOfDelete(rows: seq<Row>, chart: ChartType, key: string, c: ChartType, k: string)
    ensures Newest(Without(rows, chart, key), c, k) ==
            if c == chart && k == key then None else Newest(rows, c, k)
    decreases |rows|
  {
    if rows != [] {
      var n := |rows| - 1;
      NewestOfDelete(rows[..n], chart, key, c, k);
      if !Matches(rows[n], chart, key) {
        NewestOfInsert(Without(rows[..n], chart, key), rows[n], c, k);
      } else {
        assert Without(rows, chart, key) == Without(rows[..n], chart, key);
      }
    }
  }

  // One row for each key of the chart: its newest.
  ghost predicate IsView(view: seq<Row>, rows: seq<Row>, chart: ChartType) {
    && (forall i, j | 0 <= i < j < |view| :: view[i].key != view[j].key)
    && (forall i | 0 <= i < |view| ::
          Newest(rows, chart, view[i].key) == Some(Stored(view[i].value, view[i].encrypted)))
    && (forall k | Newest(rows, chart, k).Some? :: exists i :: 0 <= i < |view| && view[i].key == k)
  }

  class Globals {
    var rows: seq<Row>

    method Insert(key: string, value: string, encrypted: bool, chart: ChartType)
      modifies this
      ensures rows == old(rows) + [Row(key, value, chart, encrypted)]
    {
      rows := rows + [Row(key, value, chart, encrypted)];
    }

    method Delete(key: string, chart: ChartType)
      modifies this
      ensures rows == Without(old(rows), chart, key)
    {
      var kept: seq<Row> := [];
      var i := 0;
      while i < |rows|
        invariant 0 <= i <= |rows| && rows == old(rows)
        invariant kept == Without(rows[..i], chart, key)
      {
        assert rows[..i + 1][..i] == rows[..i];
        if !Matches(rows[i], chart, key) { kept := kept + [rows[i]]; }
        i := i + 1;
      }
      assert rows[..i] == rows;
      rows := kept;
    }

    // The newest row of every key of a chart.
    method GlobalValuesGet(chart: ChartType) returns (items: seq<Row>)
      ensures IsView(items, rows, chart)
    {
      items := [];
      var seen: set<string> := {};
      var i := |rows|;
      assert rows[..i] == rows;
      while i > 0
        invariant 0 <= i <= |rows|
        invariant forall k :: k in seen <==> exists j :: 0 <= j < |items| && items[j].key == k
        invariant forall j, l | 0 <= j < l < |items| :: items[j].key != items[l].key
        invariant forall j | 0 <= j < |items| ::
                    Newest(rows, chart, items[j].key) == Some(Stored(items[j].value, items[j].encrypted))
        invariant forall k | k !in seen :: Newest(rows, chart, k) == Newest(rows[..i], chart, k)
      {
        ghost var before, newer := items, i;
        i := i - 1;
        var row := rows[i];
        assert rows[..newer][..i] == rows[..i];
        assert Newest(rows[..newer], chart, row.key) ==
               if Matches(row, chart, row.key) then Some(Stored(row.value, row.encrypted))
               else Newest(rows[..i], chart, row.key);
        if row.chart == chart && row.key !in seen {
          items := items + [row];
          seen := seen + {row.key};
          assert items[|before|].key == row.key;
          assert forall j | 0 <= j < |before| :: items[j] == before[j];
        }
      }
    }
  }
}
