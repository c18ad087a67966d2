// The append-only table of team values. Rows are inserted, or a whole chart is deleted.
module TeamStore {
  import opened Wrappers
  import opened Structs

  type ChartType = string

  // Rows are in order of insertion, so the newest is the last.
  datatype Row = Row(team: string, chart: ChartType, key: string, value: string)

  function Newest(rows: seq<Row>, team: string, chart: ChartType, key: string): Option<string> {
    if rows == [] then None
    else
      var last := rows[|rows| - 1];
      if last.team == team && last.chart == chart && last.key == key then Some(last.value)
      else Newest(rows[..|rows| - 1], team, chart, key)
  }

  // TeamValueGet does not ask for the chart.
  function NewestAnywhere(rows: seq<Row>, team: string, key: string): Option<Row> {
    if rows == [] then None
    else
      var last := rows[|rows| - 1];
      if last.team == team && last.key == key then Some(last) else NewestAnywhere(rows[..|rows| - 1], team, key)
  }

  function WithoutChart(rows: seq<Row>, team: string, chart: ChartType): seq<Row> {
    if rows == [] then []
    else
      var n := |rows| - 1;
      WithoutChart(rows[..n], team, chart) + if rows[n].team == team && rows[n].chart == chart then [] else [rows[n]]
  }

  lemma NewestOfInsert(rows: seq<Row>, row: Row, team: string, chart: ChartType, key: string)
    ensures Newest(rows + [row], team, chart, key) ==
            if row.team == team && row.chart == chart && row.key == key then Some(row.value)
            else Newest(rows, team, chart, key)
  {
    assert (rows + [row])[..|rows|] == rows;
  }

  lemma {:induction false} NewestOfDelete(rows: seq<Row>, team: string, chart: ChartType, t: string,
                                          c: ChartType, k: string)
    ensures Newest(WithoutChart(rows, team, chart), t, c, k) ==
            if t == team && c == chart then None else Newest(rows, t, c, k)
    decreases |rows|
  {
    if rows != [] {
      var n := |rows| - 1;
      NewestOfDelete(rows[..n], team, chart, t, c, k);
      if rows[n].team == team && rows[n].chart == chart {
        assert WithoutChart(rows, team, chart) == WithoutChart(rows[..n], team, chart);
      } else {
        NewestOfInsert(WithoutChart(rows[..n], team, chart), rows[n], t, c, k);
      }
    }
  }

  predicate OnlyChart(rows: seq<Row>, chart: ChartType) {
    forall i | 0 <= i < |rows| :: rows[i].chart == chart
  }

  // With one type of chart, not asking for it makes no difference.
  lemma {:induction false} AnywhereIsNewest(rows: seq<Row>, chart: ChartType, team: string, key: string)
    requires OnlyChart(rows, chart)
    ensures NewestAnywhere(rows, team, key) ==
            match Newest(rows, team, chart, key) case None => None case Some(v) => Some(Row(team, chart, key, v))
    decreases |rows|
  {
    if rows != [] { AnywhereIsNewest(rows[..|rows| - 1], chart, team, key); }
  }

  // The values were written, each key once, and nothing else changed.
  ghost predicate Wrote(before: seq<Row>, after: seq<Row>, team: string, chart: ChartType, values: Values) {
    && before <= after
    && (forall i | |before| <= i < |after| :: after[i].team == team && after[i].chart == chart)
    && (forall t, c, k :: Newest(after, t, c, k) ==
                          if t == team && c == chart && k in values then Some(values[k]) else Newest(before, t, c, k))
  }

  lemma WroteMore(before: seq<Row>, middle: seq<Row>, after: seq<Row>, team: string, chart: ChartType,
                  values: Values, more: Values)
    requires Wrote(before, middle, team, chart, values) && Wrote(middle, after, team, chart, more)
    ensures Wrote(before, after, team, chart, values + more)
  {
  }

  lemma WroteOne(rows: seq<Row>, team: string, chart: ChartType, key: string, value: string)
    ensures Wrote(rows, rows + [Row(team, chart, key, value)], team, chart, map[key := value])
  {
    forall t, c, k
      ensures Newest(rows + [Row(team, chart, key, value)], t, c, k) ==
              if t == team && c == chart && k == key then Some(value) else Newest(rows, t, c, k)
    {
      NewestOfInsert(rows, Row(team, chart, key, value), t, c, k);
    }
  }

  lemma WroteOneMore(before: seq<Row>, middle: seq<Row>, row: Row, values: Values)
    requires Wrote(before, middle, row.team, row.chart, values)
    ensures Wrote(before, middle + [row], row.team, row.chart, values[row.key := row.value])
  {
    WroteOne(middle, row.team, row.chart, row.key, row.value);
  }

  lemma WroteNothing(rows: seq<Row>, team: string, chart: ChartType)
    ensures Wrote(rows, rows, team, chart, map[])
  {
  }

  class Repo {
    var rows: seq<Row>

    // fails says whether the database refuses the row.
    method TeamValueInsert(team: string, chart: ChartType, key: string, value: string, fails: bool)
      returns (ok: bool)
      modifies this
      ensures ok == !fails
      ensures fails ==> rows == old(rows)
      ensures !fails ==> Wrote(old(rows), rows, team, chart, map[key := value])
    {
      if fails { return false; }
      WroteOne(rows, team, chart, key, value);
      rows := rows + [Row(team, chart, key, value)];
      ok := true;
    }

    // One transaction: all the values, in whatever order the map gives them, or none.
    // failsAt is the number of inserts before the database refuses one, or the commit.
    method HelmChartValuesInsert(chart: ChartType, values: Values, team: string, failsAt: Option<nat>)
      returns (ok: bool)
      modifies this
      ensures ok ==> Wrote(old(rows), rows, team, chart, values)
      ensures !ok ==> rows == old(rows)
      ensures ok == (failsAt == None || failsAt.value > |values|)
    {
      hide Wrote, Newest;
      WroteNothing(rows, team, chart);
      var tx := rows;
      var inserted := 0;
      var todo := values.Keys;
      ghost var n := |values|;
      assert |todo| == n;
      ghost var done: Values := map[];
      while todo != {}
        invariant rows == old(rows) && todo <= values.Keys && inserted + |todo| == n
        invariant failsAt.Some? ==> inserted <= failsAt.value
        invariant done.Keys == values.Keys - todo && forall k | k in done :: done[k] == values[k]
        invariant Wrote(rows, tx, team, chart, done)
        decreases todo
      {
        var key :| key in todo;
        if failsAt == Some(inserted) { return false; }
        var row := Row(team, chart, key, values[key]);
        WroteOneMore(rows, tx, row, done);
        tx := tx + [row];
        inserted := inserted + 1;
        todo := todo - {key};
        done := done[key := values[key]];
      }
      assert inserted == n;
      if failsAt == Some(inserted) { return false; }
      assert done == values;
      rows := tx;
      ok := true;
    }

    method ChartDelete(team: string, chart: ChartType)
      modifies this
      ensures rows == WithoutChart(old(rows), team, chart)
    {
      var kept: seq<Row> := [];
      var i := 0;
      while i < |rows|
        invariant 0 <= i <= |rows| && rows == old(rows) && kept == WithoutChart(rows[..i], team, chart)
      {
        assert rows[..i + 1][..i] == rows[..i];
        if rows[i].team != team || rows[i].chart != chart { kept := kept + [rows[i]]; }
        i := i + 1;
      }
      assert rows[..i] == rows;
      rows := kept;
    }

    method TeamValueGet(team: string, key: string) returns (row: Option<Row>)
      ensures row == NewestAnywhere(rows, team, key)
    {
      var i := |rows|;
      assert rows[..i] == rows;
      while i > 0
        invariant 0 <= i <= |rows| && NewestAnywhere(rows, team, key) == NewestAnywhere(rows[..i], team, key)
      {
        assert rows[..i][..i - 1] == rows[..i - 1];
        i := i - 1;
        if rows[i].team == team && rows[i].key == key { return Some(rows[i]); }
      }
      row := None;
    }

    // The newest value of each key, collected into a map as the reader does.
    method TeamValuesGet(chart: ChartType, team: string) returns (values: Values)
      ensures forall k :: (if k in values then Some(values[k]) else None) == Newest(rows, team, chart, k)
    {
      values := map[];
      var i := 0;
      while i < |rows|
        invariant 0 <= i <= |rows|
        invariant forall k :: (if k in values then Some(values[k]) else None) == Newest(rows[..i], team, chart, k)
      {
        assert rows[..i + 1] == rows[..i] + [rows[i]];
        forall k
          ensures Newest(rows[..i + 1], team, chart, k) ==
                  if rows[i].team == team && rows[i].chart == chart && k == rows[i].key then Some(rows[i].value)
                  else Newest(rows[..i], team, chart, k)
        {
          NewestOfInsert(rows[..i], rows[i], team, chart, k);
        }
        if rows[i].team == team && rows[i].chart == chart { values := values[rows[i].key := rows[i].value]; }
        i := i + 1;
      }
      assert rows[..i] == rows;
    }

    // Fills the tagged fields of obj with what is stored.
    method TeamConfigurableValuesGet(lists: Lists, chart: ChartType, team: string, obj: Record)
      returns (err: Option<CodecError>, ghost values: Values)
      modifies obj
      ensures forall k :: (if k in values then Some(values[k]) else None) == Newest(rows, team, chart, k)
      ensures |obj.fields| == |old(obj.fields)|
      ensures err == None ==>
                forall i | 0 <= i < |obj.fields| :: ReadField(lists, old(obj.fields)[i], values) == Ok(obj.fields[i])
      ensures err.Some? ==>
                exists i :: 0 <= i < |obj.fields| && ReadField(lists, old(obj.fields)[i], values) == Err(err.value)
    {
      var stored := TeamValuesGet(chart, team);
      values := stored;
      err := InterfaceToStruct(lists, obj, stored);
    }
  }
}
